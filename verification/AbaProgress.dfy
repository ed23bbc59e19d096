// No round gets stuck: where all correct peers are in one round and have handled
// each other's messages of it, every peer that is furthest behind moves on when it
// is woken up.

module AbaProgress {
  import opened Options
  import opened Quorum
  import opened AbaNode
  import opened AbaLocal
  import opened AbaSystem
  import opened AbaTheorems
  import opened AbaRuns
  import C = CoinQueue

  // ----- what a peer has said -----

  predicate Odd(v: int) {
    v != 0 && v != 1
  }

  // Every AUX, CONF and coin share in the histories was broadcast; CONF Both needs
  // more than one binary value, or one that is not a bit.
  ghost predicate Spoken(nd: Node, me: Peer) {
    && (forall i {:trigger nd.hist.auxs[i]} :: 0 <= i < |nd.hist.auxs| ==> Aux(i, me.id, nd.hist.auxs[i]) in nd.sent)
    && (forall i {:trigger nd.hist.confs[i]} :: 0 <= i < |nd.hist.confs| ==>
          Conf(i, me.id, nd.hist.confs[i]) in nd.sent)
    && (forall i :: 0 <= i < |nd.hist.vals| ==> Coin(i, me.id, me.hash(i)) in nd.sent)
    && (forall i {:trigger nd.hist.confs[i]} :: 0 <= i < |nd.hist.confs| && nd.hist.confs[i] == BOTH ==>
          Ambiguous(nd.board.binValues, i))
  }

  ghost predicate Ambiguous(b: Bins, r: int) {
    |Values(b, r)| >= 2 || exists w :: w in Values(b, r) && Odd(w)
  }

  lemma AmbiguousGrows(b: Bins, r: int, v: int, i: int)
    requires Ambiguous(b, i)
    ensures Ambiguous(Add(b, r, v), i)
  {
    if |Values(b, i)| < 2 {
      var w :| w in Values(b, i) && Odd(w);
      assert w in Values(Add(b, r, v), i);
    }
  }

  // Both is chosen only if no single binary bit has the quorum.
  lemma BothAmbiguous(b: Board, r: int, quorum: int)
    requires quorum > 0 && AuxChoice(b, r, quorum) == Some(BOTH)
    ensures Ambiguous(b.binValues, r)
  {
    var vs := Values(b.binValues, r);
    if |vs| == 1 {
      assert vs[..0] == [];
      assert CountOver(b.auxValues, r, vs) == CountOver(b.auxValues, r, vs[..0]) + |Senders(b.auxValues, r, vs[0])|;
      assert vs[0] in vs;
    }
  }

  lemma FreshSpoken(me: Peer)
    ensures Spoken(FRESH, me)
  {
  }

  lemma HandleSpoken(nd: Node, me: Peer, m: Msg, ok: bool)
    requires Spoken(nd, me)
    ensures Spoken(HandleMsg(nd, me, m, ok), me)
  {
    hide Ambiguous, Spoken, HandleMsg;
    var nd' := HandleMsg(nd, me, m, ok);
    HandleKeeps(nd, me, m, ok);
    if nd'.board.binValues != nd.board.binValues {
      forall i | Ambiguous(nd.board.binValues, i) ensures Ambiguous(nd'.board.binValues, i) {
        AmbiguousGrows(nd.board.binValues, m.round, m.value, i);
      }
    }
    StillSpoken(nd, nd', me);
  }

  lemma HandleKeeps(nd: Node, me: Peer, m: Msg, ok: bool)
    ensures var nd' := HandleMsg(nd, me, m, ok);
      && nd'.hist == nd.hist && nd.sent <= nd'.sent
      && (nd'.board.binValues == nd.board.binValues
          || (m.Est? && nd'.board.binValues == Add(nd.board.binValues, m.round, m.value)))
  {
    hide C.Handle;
  }

  lemma StillSpoken(nd: Node, nd': Node, me: Peer)
    requires Spoken(nd, me) && nd'.hist == nd.hist && nd.sent <= nd'.sent
    requires forall i :: Ambiguous(nd.board.binValues, i) ==> Ambiguous(nd'.board.binValues, i)
    ensures Spoken(nd', me)
  {
    hide Ambiguous;
  }

  lemma WakeSpoken(nd: Node, me: Peer)
    requires LocalInv(nd, me) && Spoken(nd, me) && me.n > me.f
    ensures Spoken(Wake(nd, me), me)
  {
    hide VotesInv, LogInv, EstInv, DecideInv, StopInv, AuxChoice, ConfChoice, Ambiguous;
    if nd.phase == WaitAux && AuxChoice(nd.board, nd.round, me.n - me.f) == Some(BOTH) {
      BothAmbiguous(nd.board, nd.round, me.n - me.f);
    }
  }

  ghost predicate AllSpoken(c: Cfg, s: Sys) {
    Complete(c, s) && forall p :: p in Correct(c) ==> Spoken(s[p], PeerOf(c, p))
  }

  lemma StepSpoken(c: Cfg, s: Sys, step: Step, s': Sys)
    requires ValidCfg(c) && Inv(c, s) && AllSpoken(c, s) && Next(c, s, step, s')
    ensures AllSpoken(c, s')
  {
    hide Spoken, LocalInv, Received, EstsJustified;
    var me := PeerOf(c, step.p);
    match step
    case Give(p, v) => InputSpoken(s[p], me, v);
    case Deliver(p, m, ok) => HandleSpoken(s[p], me, m, ok);
    case WakeUp(p) => WakeSpoken(s[p], me);
  }

  lemma InputSpoken(nd: Node, me: Peer, v: int)
    requires Spoken(nd, me)
    ensures Spoken(Input(nd, me, v), me)
  {
  }

  lemma {:induction false} RunSpoken(c: Cfg, run: seq<Sys>, i: nat)
    requires ValidCfg(c) && IsRun(c, run) && i < |run|
    ensures AllSpoken(c, run[i])
  {
    hide Inv, ValidCfg, Next, Spoken;
    if i == 0 {
      StartSpoken(c, run[0]);
    } else {
      assert Steps(c, run[i - 1], run[i]);
      RunSpoken(c, run, i - 1);
      RunInv(c, run, i - 1);
      var step :| Next(c, run[i - 1], step, run[i]);
      StepSpoken(c, run[i - 1], step, run[i]);
    }
  }

  lemma StartSpoken(c: Cfg, s: Sys)
    requires Init(c, s)
    ensures AllSpoken(c, s)
  {
    hide Spoken;
    forall p | p in Correct(c) ensures Spoken(s[p], PeerOf(c, p)) {
      FreshSpoken(PeerOf(c, p));
    }
  }

  // ----- handled messages are counted -----

  // The vote is recorded, or the share unless its round has its bit already.
  ghost predicate Counted(nd: Node, f: nat, m: Msg) {
    match m
    case Est(r, x, v) => x in Senders(nd.board.estValues, r, v)
    case Aux(r, x, v) => x in Senders(nd.board.auxValues, r, v)
    case Conf(r, x, v) => x in Senders(nd.board.confValues, r, v)
    case Coin(r, x, h) => x in C.SharesOf(nd.coin, r) || C.Complete(nd.coin, f, r)
  }

  lemma HandleCounts(nd: Node, me: Peer, m: Msg)
    ensures Counted(HandleMsg(nd, me, m, true), me.f, m)
  {
    if m.Coin? {
      C.HandleShape(nd.coin, me.f, C.Share(m.round, m.sender, m.head));
    }
  }

  lemma SharesStay(b: C.Box, f: nat, m: C.Share, ok: bool, r: int)
    ensures C.SharesOf(b, r) <= C.SharesOf(C.Handle(b, f, m, ok), r)
    ensures C.Complete(b, f, r) ==> C.Complete(C.Handle(b, f, m, ok), f, r)
  {
    SubsetCount(C.SharesOf(b, r), C.SharesOf(C.Handle(b, f, m, ok), r));
  }

  lemma StaysCounted(c: Cfg, nd: Node, step: Step, m: Msg)
    requires Counted(nd, c.f, m)
    ensures Counted(After(c, nd, step), c.f, m)
  {
    hide C.Handle, C.Complete, C.SharesOf, Wake;
    match step
    case Give(p, v) =>
    case Deliver(p, x, ok) =>
      if x.Coin? && m.Coin? {
        SharesStay(nd.coin, c.f, C.Share(x.round, x.sender, x.head), ok, m.round);
      }
    case WakeUp(p) => WakeCounted(c, nd, p, m);
  }

  lemma WakeCounted(c: Cfg, nd: Node, p: int, m: Msg)
    requires Counted(nd, c.f, m)
    ensures Counted(Wake(nd, PeerOf(c, p)), c.f, m)
  {
    hide AuxChoice, ConfChoice;
  }

  // The step from run[i] delivers m to p, with a signature that verifies.
  predicate Delivered(c: Cfg, run: seq<Sys>, i: nat, p: int, m: Msg) {
    && i + 1 < |run| && p in run[i] && p in run[i + 1]
    && run[i + 1] == run[i][p := HandleMsg(run[i][p], PeerOf(c, p), m, true)]
  }

  // A message handled by a correct peer counts from then on.
  lemma {:induction false} HandledCounts(c: Cfg, run: seq<Sys>, i: nat, p: int, m: Msg, j: nat)
    requires IsRun(c, run) && p in Correct(c) && Delivered(c, run, i, p, m) && i < j < |run|
    ensures p in run[j] && Counted(run[j][p], c.f, m)
    decreases j
  {
    hide Init, Enabled, HandleMsg, After, Counted;
    if j == i + 1 {
      HandleCounts(run[i][p], PeerOf(c, p), m);
    } else {
      HandledCounts(c, run, i, p, m, j - 1);
      assert Steps(c, run[j - 1], run[j]);
      var step :| Next(c, run[j - 1], step, run[j]);
      StaysCounted(c, run[j - 1][p], step, m);
    }
  }

  // ----- a round with all messages handled -----

  // Every correct peer is in round r, waiting for something other than an input.
  ghost predicate AllIn(c: Cfg, s: Sys, r: nat) {
    forall p :: p in Correct(c) ==> p in s && s[p].round == r && s[p].phase != WaitInput && s[p].phase != Stopped
  }

  // What correct peers sent for round r has been handled by all of them.
  ghost predicate RoundHandled(c: Cfg, s: Sys, r: nat) {
    && EstsHandled(c, s, r)
    && (forall p, q, v :: p in Correct(c) && q in Correct(c) && p in s && q in s && Aux(r, q, v) in s[q].sent
                          ==> q in Senders(s[p].board.auxValues, r, v))
    && (forall p, q, v :: p in Correct(c) && q in Correct(c) && p in s && q in s && Conf(r, q, v) in s[q].sent
                          ==> q in Senders(s[p].board.confValues, r, v))
    && (forall p, q, h :: p in Correct(c) && q in Correct(c) && p in s && q in s && Coin(r, q, h) in s[q].sent
                          ==> q in C.SharesOf(s[p].coin, r) || C.Complete(s[p].coin, c.f, r))
  }

  predicate InRoundOf(m: Msg, r: int) {
    m.round == r
  }

  // Every message of round r that a correct peer has sent was delivered to all
  // correct peers.
  ghost predicate RoundDelivered(c: Cfg, run: seq<Sys>, j: nat, r: nat)
    requires j < |run|
  {
    forall p, q, m :: p in Correct(c) && q in Correct(c) && q in run[j] && m in run[j][q].sent && InRoundOf(m, r) ==>
      exists i :: 0 <= i < j && Delivered(c, run, i, p, m)
  }

  // Then it is handled by all of them.
  lemma DeliveredHandled(c: Cfg, run: seq<Sys>, j: nat, r: nat)
    requires ValidCfg(c) && IsRun(c, run) && j < |run| && RoundDelivered(c, run, j, r)
    ensures RoundHandled(c, run[j], r)
  {
    hide ValidCfg, IsRun, Delivered, C.Complete, C.SharesOf;
    forall p, q, m | p in Correct(c) && q in Correct(c) && q in run[j] && m in run[j][q].sent && InRoundOf(m, r)
      ensures p in run[j] && Counted(run[j][p], c.f, m)
    {
      var i :| 0 <= i < j && Delivered(c, run, i, p, m);
      HandledCounts(c, run, i, p, m, j);
    }
    CountedHandled(c, run[j], r);
  }

  lemma CountedHandled(c: Cfg, s: Sys, r: nat)
    requires forall p, q, m :: p in Correct(c) && q in Correct(c) && q in s && m in s[q].sent && InRoundOf(m, r) ==>
               p in s && Counted(s[p], c.f, m)
    ensures RoundHandled(c, s, r)
  {
    hide C.Complete, C.SharesOf, Senders;
    forall p, q, v | p in Correct(c) && q in Correct(c) && p in s && q in s && Est(r, q, v) in s[q].sent
      ensures q in Senders(s[p].board.estValues, r, v)
    {
      assert InRoundOf(Est(r, q, v), r);
      assert Counted(s[p], c.f, Est(r, q, v));
    }
    forall p, q, v | p in Correct(c) && q in Correct(c) && p in s && q in s && Aux(r, q, v) in s[q].sent
      ensures q in Senders(s[p].board.auxValues, r, v)
    {
      assert InRoundOf(Aux(r, q, v), r);
      assert Counted(s[p], c.f, Aux(r, q, v));
    }
    forall p, q, v | p in Correct(c) && q in Correct(c) && p in s && q in s && Conf(r, q, v) in s[q].sent
      ensures q in Senders(s[p].board.confValues, r, v)
    {
      assert InRoundOf(Conf(r, q, v), r);
      assert Counted(s[p], c.f, Conf(r, q, v));
    }
    forall p, q, h | p in Correct(c) && q in Correct(c) && p in s && q in s && Coin(r, q, h) in s[q].sent
      ensures q in C.SharesOf(s[p].coin, r) || C.Complete(s[p].coin, c.f, r)
    {
      assert InRoundOf(Coin(r, q, h), r);
      assert Counted(s[p], c.f, Coin(r, q, h));
    }
  }

  lemma EnoughCorrect(c: Cfg)
    requires ValidCfg(c)
    ensures |Correct(c)| >= c.n - c.f && |Correct(c)| >= 2 * c.f + 1
  {
    CorrectAmong(c.n, c.f, c.faulty, Peers(c.n));
  }

  // ----- waiting for binary values -----

  // f+1 correct peers entered the round with one value.
  lemma MajorityEstimate(c: Cfg, s: Sys, r: nat) returns (v: int, backers: set<int>)
    requires ValidCfg(c) && Inv(c, s) && AllIn(c, s, r)
    ensures v in {0, 1} && backers <= Correct(c) && |backers| >= c.f + 1
    ensures forall q :: q in backers ==> q in s && Est(r, q, v) in s[q].sent
  {
    hide Inv, LocalInv, ValidCfg;
    forall q | q in Correct(c) ensures q in s && r < |s[q].hist.ests| && s[q].hist.ests[r] in {0, 1}
      && Est(r, q, s[q].hist.ests[r]) in s[q].sent
    {
      InRound(c, s, q, r);
    }
    var zero := set q | q in Correct(c) && s[q].hist.ests[r] == 0;
    var one := set q | q in Correct(c) && s[q].hist.ests[r] == 1;
    assert zero + one == Correct(c);
    SumCount(zero, one);
    EnoughCorrect(c);
    if |zero| >= c.f + 1 {
      v, backers := 0, zero;
    } else {
      v, backers := 1, one;
    }
  }

  lemma SumCount(a: set<int>, b: set<int>)
    ensures |a + b| <= |a| + |b|
  {
    assert a + b == a + (b - a);
    SubsetCount(b - a, b);
  }

  lemma InRound(c: Cfg, s: Sys, q: int, r: nat)
    requires Inv(c, s) && q in Correct(c) && AllIn(c, s, r)
    ensures q in s && r < |s[q].hist.ests| && s[q].hist.ests[r] in {0, 1}
    ensures Est(r, q, s[q].hist.ests[r]) in s[q].sent
  {
    hide Received, EstsJustified, VotesInv, DecideInv, StopInv;
    assert LocalInv(s[q], PeerOf(c, q));
    Bits(c, s, q, r);
  }

  // Every correct peer relays that value.
  lemma MajorityRelayed(c: Cfg, s: Sys, r: nat, v: int, backers: set<int>, x: int)
    requires Inv(c, s) && RoundHandled(c, s, r) && backers <= Correct(c) && |backers| >= c.f + 1
    requires forall q :: q in backers ==> q in s && Est(r, q, v) in s[q].sent
    requires x in Correct(c)
    ensures Est(r, x, v) in s[x].sent
  {
    hide Received, EstsJustified, VotesInv, RoundsInv;
    assert LocalInv(s[x], PeerOf(c, x));
    SubsetCount(backers, Senders(s[x].board.estValues, r, v));
  }

  lemma SomeBinary(c: Cfg, s: Sys, r: nat, p: int)
    requires ValidCfg(c) && Inv(c, s) && AllIn(c, s, r) && RoundHandled(c, s, r) && p in Correct(c)
    ensures Values(s[p].board.binValues, r) != []
  {
    hide Received, EstsJustified, LogInv, RoundsInv, ValidCfg;
    var v, backers := MajorityEstimate(c, s, r);
    forall x | x in Correct(c) ensures x in Senders(s[p].board.estValues, r, v) {
      MajorityRelayed(c, s, r, v, backers, x);
    }
    SubsetCount(Correct(c), Senders(s[p].board.estValues, r, v));
    EnoughCorrect(c);
    assert LocalInv(s[p], PeerOf(c, p));
    assert v in Values(s[p].board.binValues, r);
  }

  lemma BinaryMoves(c: Cfg, s: Sys, r: nat, p: int)
    requires ValidCfg(c) && Inv(c, s) && AllIn(c, s, r) && RoundHandled(c, s, r) && p in Correct(c)
    requires s[p].phase == WaitBinary
    ensures Wake(s[p], PeerOf(c, p)).phase == WaitAux
  {
    hide Inv, RoundHandled, ValidCfg;
    SomeBinary(c, s, r, p);
  }

  // ----- waiting for AUX -----

  // Counting over values reaches every set of senders of some of them.
  lemma {:induction false} CountCovers(t: Tally, r: int, vs: seq<int>, xs: set<int>)
    requires forall x :: x in xs ==> exists v :: v in vs && x in Senders(t, r, v)
    ensures CountOver(t, r, vs) >= |xs|
    decreases |vs|
  {
    if vs == [] {
      if xs != {} {
        SomeElement(xs);
      }
    } else {
      var init, last := vs[..|vs| - 1], vs[|vs| - 1];
      var rest := xs - Senders(t, r, last);
      forall x | x in rest ensures exists v :: v in init && x in Senders(t, r, v) {
        var v :| v in vs && x in Senders(t, r, v);
        assert v in init;
      }
      CountCovers(t, r, init, rest);
      SubsetCount(xs, rest + Senders(t, r, last));
      SumCount(rest, Senders(t, r, last));
    }
  }

  // A correct peer's AUX is counted everywhere, under a value that is binary there.
  lemma AuxCounted(c: Cfg, s: Sys, r: nat, p: int, q: int) returns (v: int)
    requires ValidCfg(c) && Inv(c, s) && AllSpoken(c, s) && AllIn(c, s, r) && RoundHandled(c, s, r)
    requires p in Correct(c) && q in Correct(c) && s[q].phase != WaitBinary
    ensures v in Values(s[p].board.binValues, r) && q in Senders(s[p].board.auxValues, r, v)
  {
    hide Received, EstsJustified, LogInv, EstInv, DecideInv, StopInv, BinInv, EstsHandled;
    assert LocalInv(s[q], PeerOf(c, q));
    assert Spoken(s[q], PeerOf(c, q));
    v := s[q].hist.auxs[r];
    assert v in Values(s[q].board.binValues, r);
    BinConverges(c, s, r, q, p, v);
  }

  lemma AuxMoves(c: Cfg, s: Sys, r: nat, p: int)
    requires ValidCfg(c) && Inv(c, s) && AllSpoken(c, s) && AllIn(c, s, r) && RoundHandled(c, s, r)
    requires forall q :: q in Correct(c) ==> s[q].phase != WaitBinary
    requires p in Correct(c) && s[p].phase == WaitAux
    ensures Wake(s[p], PeerOf(c, p)).phase == WaitConf
  {
    hide Inv, AllSpoken, RoundHandled, ValidCfg;
    var b := s[p].board;
    forall q | q in Correct(c) ensures exists v :: v in Values(b.binValues, r) && q in Senders(b.auxValues, r, v) {
      var v := AuxCounted(c, s, r, p, q);
    }
    CountCovers(b.auxValues, r, Values(b.binValues, r), Correct(c));
    EnoughCorrect(c);
  }

  // ----- waiting for CONF -----

  // A correct peer's CONF is counted everywhere; if it is Both, exactly the two bits
  // are binary there, and else its value is.
  lemma ConfCounted(c: Cfg, s: Sys, r: nat, p: int, q: int) returns (v: int)
    requires ValidCfg(c) && Inv(c, s) && AllSpoken(c, s) && AllIn(c, s, r) && RoundHandled(c, s, r)
    requires p in Correct(c) && q in Correct(c) && s[q].phase in {WaitConf, WaitCoin}
    ensures r < |s[q].hist.confs| && v == s[q].hist.confs[r] && q in Senders(s[p].board.confValues, r, v)
    ensures v in {0, 1, BOTH}
    ensures v != BOTH ==> v in Values(s[p].board.binValues, r)
    ensures v == BOTH ==> |Values(s[p].board.binValues, r)| == 2
  {
    hide Received, EstsJustified, LogInv, EstInv, DecideInv, StopInv, BinInv, EstsHandled;
    assert LocalInv(s[q], PeerOf(c, q));
    assert Spoken(s[q], PeerOf(c, q));
    v := s[q].hist.confs[r];
    assert Justified(s[q].board, s[q].board.auxValues, r, v, c.n - c.f);
    if v != BOTH {
      BinConverges(c, s, r, q, p, v);
    } else {
      TwoBits(c, s, r, p, q);
    }
  }

  lemma InvPresent(c: Cfg, s: Sys)
    requires Inv(c, s)
    ensures Complete(c, s)
  {
  }

  lemma TwoBits(c: Cfg, s: Sys, r: nat, p: int, q: int)
    requires ValidCfg(c) && Inv(c, s) && EstsHandled(c, s, r) && p in Correct(c) && q in Correct(c)
    requires Ambiguous(s[q].board.binValues, r)
    ensures |Values(s[p].board.binValues, r)| == 2
  {
    hide Inv, ValidCfg, EstsHandled, Distinct, Estimated;
    InvPresent(c, s);
    BinaryBits(c, s, r, q);
    BinaryBits(c, s, r, p);
    var vs, ws := Values(s[q].board.binValues, r), Values(s[p].board.binValues, r);
    assert |vs| >= 2;
    BinConverges(c, s, r, q, p, vs[0]);
    BinConverges(c, s, r, q, p, vs[1]);
    DistinctEntries(vs, 0, 1);
    BothBits(ws, vs[0], vs[1]);
  }

  lemma BothBits(ws: seq<int>, v: int, w: int)
    requires Distinct(ws) && (forall x :: x in ws ==> x in {0, 1}) && v in ws && w in ws && v != w
    ensures |ws| == 2
  {
    hide Distinct;
    forall k | 0 <= k < |ws| ensures ws[k] == 0 || ws[k] == 1 {
      assert ws[k] in ws;
    }
    if |ws| >= 3 {
      DistinctEntries(ws, 0, 1);
      DistinctEntries(ws, 0, 2);
      DistinctEntries(ws, 1, 2);
    }
  }

  lemma BinaryBits(c: Cfg, s: Sys, r: int, p: int)
    requires ValidCfg(c) && Inv(c, s) && p in Correct(c)
    ensures forall v :: v in Values(s[p].board.binValues, r) ==> v in {0, 1}
    ensures Distinct(Values(s[p].board.binValues, r))
  {
    hide ValidCfg, Distinct, Estimated;
    forall v | v in Values(s[p].board.binValues, r) ensures v in {0, 1} {
      BinJustified(c, s, p, r, v);
    }
    if Values(s[p].board.binValues, r) == [] {
      NoneDistinct(Values(s[p].board.binValues, r));
    } else {
      BinJustified(c, s, p, r, Values(s[p].board.binValues, r)[0]);
    }
  }

  lemma NoneDistinct(s: seq<int>)
    requires s == []
    ensures Distinct(s)
  {
  }

  lemma ConfMoves(c: Cfg, s: Sys, r: nat, p: int)
    requires ValidCfg(c) && Inv(c, s) && AllSpoken(c, s) && AllIn(c, s, r) && RoundHandled(c, s, r)
    requires forall q :: q in Correct(c) ==> s[q].phase in {WaitConf, WaitCoin}
    requires p in Correct(c) && s[p].phase == WaitConf
    ensures Wake(s[p], PeerOf(c, p)).phase == WaitCoin
  {
    hide Inv, AllSpoken, RoundHandled, ValidCfg, Senders, Values;
    var b := s[p].board;
    EnoughCorrect(c);
    var own := ConfCounted(c, s, r, p, p);
    if exists q :: q in Correct(c) && r < |s[q].hist.confs| && s[q].hist.confs[r] == BOTH {
      var q :| q in Correct(c) && r < |s[q].hist.confs| && s[q].hist.confs[r] == BOTH;
      var both := ConfCounted(c, s, r, p, q);
      forall x | x in Correct(c) ensures exists v :: v in [BOTH, 0, 1] && x in Senders(b.confValues, r, v) {
        var v := ConfCounted(c, s, r, p, x);
        assert v in [BOTH, 0, 1];
      }
      CountCovers(b.confValues, r, [BOTH, 0, 1], Correct(c));
    } else {
      forall x | x in Correct(c) ensures x in Senders(b.confValues, r, own) {
        var v := ConfCounted(c, s, r, p, x);
        NoConflictingConf(c, s, r, p, x);
      }
      SubsetCount(Correct(c), Senders(b.confValues, r, own));
    }
  }

  // ----- waiting for the coin -----

  lemma CoinMoves(c: Cfg, s: Sys, r: nat, p: int)
    requires ValidCfg(c) && Inv(c, s) && AllSpoken(c, s) && AbaSystem.InOrder(c, s)
    requires AllIn(c, s, r) && RoundHandled(c, s, r)
    requires forall q :: q in Correct(c) ==> s[q].phase == WaitCoin
    requires p in Correct(c)
    ensures Wake(s[p], PeerOf(c, p)).phase != WaitCoin
  {
    hide ValidCfg, VotesInv, LogInv, EstInv, DecideInv, StopInv, Received, EstsJustified, Spoken, EstsHandled,
      C.Accounted;
    assert LocalInv(s[p], PeerOf(c, p));
    EnoughCorrect(c);
    var b := s[p].coin;
    if !C.Complete(b, c.f, r) {
      forall q | q in Correct(c) ensures q in C.SharesOf(b, r) {
        ShareSent(c, s, r, q);
      }
      SubsetCount(Correct(c), C.SharesOf(b, r));
    }
  }

  lemma ShareSent(c: Cfg, s: Sys, r: nat, q: int)
    requires Inv(c, s) && AllSpoken(c, s) && AllIn(c, s, r) && q in Correct(c) && s[q].phase == WaitCoin
    ensures Coin(r, q, c.hash(r)) in s[q].sent
  {
    hide VotesInv, LogInv, EstInv, DecideInv, StopInv, Received, EstsJustified;
    assert LocalInv(s[q], PeerOf(c, q));
    assert Spoken(s[q], PeerOf(c, q));
    assert s[q].hist.vals[r] == s[q].hist.vals[r];
  }

  // ----- over runs -----

  // The order of the waits of a round.
  function Rank(phase: Phase): int {
    match phase
    case WaitInput => 0
    case WaitBinary => 1
    case WaitAux => 2
    case WaitConf => 3
    case WaitCoin => 4
    case Stopped => 5
  }

  // No correct peer waits earlier in the round than p.
  ghost predicate Behind(c: Cfg, s: Sys, p: int) {
    p in s && forall q :: q in Correct(c) && q in s ==> Rank(s[p].phase) <= Rank(s[q].phase)
  }

  // Where all correct peers are in one round and have handled each other's messages
  // of it, each that waits earliest moves on when woken up, whatever faulty peers
  // sent; the coin comes if shares come in order.
  lemma RoundMoves(c: Cfg, run: seq<Sys>, i: nat, r: nat, p: int)
    requires ValidCfg(c) && IsRun(c, run) && i < |run|
    requires AllIn(c, run[i], r) && RoundHandled(c, run[i], r)
    requires p in Correct(c) && Behind(c, run[i], p)
    requires run[i][p].phase == WaitCoin ==> IsOrdered(c, run, Peers(c.n))
    ensures Wake(run[i][p], PeerOf(c, p)).phase != run[i][p].phase
  {
    hide ValidCfg, IsOrdered, IsRun, Inv, AllSpoken, RoundHandled, AbaSystem.InOrder, Wake;
    RunInv(c, run, i);
    RunSpoken(c, run, i);
    var s := run[i];
    match s[p].phase
    case WaitBinary => BinaryMoves(c, s, r, p);
    case WaitAux => AuxMoves(c, s, r, p);
    case WaitConf => ConfMoves(c, s, r, p);
    case WaitCoin =>
      OrderedInOrder(c, run, i);
      CoinMoves(c, s, r, p);
    case WaitInput =>
    case Stopped =>
  }
}
