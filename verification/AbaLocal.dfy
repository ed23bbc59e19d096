// What every step of one peer's binary agreement keeps, whatever the other
// peers send.

module AbaLocal {
  import opened Options
  import opened Quorum
  import opened AbaNode
  import C = CoinQueue

  // ----- the invariant -----

  // A value is binary exactly from 2f+1 EST senders on, and listed once.
  ghost predicate BinInv(b: Board, f: nat) {
    && (forall r :: Distinct(Values(b.binValues, r)))
    && (forall r, v :: v in Values(b.binValues, r) <==> |Senders(b.estValues, r, v)| >= 2 * f + 1)
  }

  // A value with f+1 EST senders has been relayed.
  ghost predicate Relayed(est: Tally, sent: set<Msg>, me: Peer) {
    forall r, v :: |Senders(est, r, v)| >= me.f + 1 ==> Est(r, me.id, v) in sent
  }

  // What the log may hold: the peer's own name, one AUX and one CONF per round.
  ghost predicate OwnMsg(m: Msg, h: History, me: Peer) {
    && m.sender == me.id
    && match m
       case Est(_, _, _) => true
       case Aux(r, _, v) => 0 <= r < |h.auxs| && h.auxs[r] == v
       case Conf(r, _, v) => 0 <= r < |h.confs| && h.confs[r] == v
       case Coin(r, _, x) => 0 <= r < |h.vals| && x == me.hash(r)
  }

  ghost predicate SentInv(sent: set<Msg>, h: History, me: Peer) {
    forall m :: m in sent ==> OwnMsg(m, h, me)
  }

  // How far each history has come at each waiting place.
  ghost predicate ShapeInv(nd: Node) {
    var k := nd.round;
    && k >= 0
    && (nd.phase == WaitInput ==> k == 0)
    && |nd.hist.ests| == (if nd.phase == WaitInput then 0 else k + 1)
    && |nd.hist.auxs| == (if nd.phase in {WaitAux, WaitConf, WaitCoin, Stopped} then k + 1 else k)
    && |nd.hist.confs| == (if nd.phase in {WaitConf, WaitCoin, Stopped} then k + 1 else k)
    && |nd.hist.vals| == (if nd.phase in {WaitCoin, Stopped} then k + 1 else k)
    && |nd.coin.taken| == (if nd.phase == Stopped then k + 1 else k)
    && (nd.phase == WaitCoin ==> nd.values == nd.hist.vals[k])
  }

  // Each estimate entered with was broadcast, and comes from the input or from
  // the last round's value and coin.
  ghost predicate EstInv(h: History, taken: seq<int>, sent: set<Msg>, me: Peer) {
    && (forall i :: 0 <= i < |h.ests| ==> Est(i, me.id, h.ests[i]) in sent)
    && (|h.ests| > 0 ==> h.ests[0] in {0, 1})
    && |h.ests| <= |h.vals| + 1 && |h.ests| <= |taken| + 1
    && (forall i :: 0 < i < |h.ests| ==> h.ests[i] == NextEst(h.vals[i - 1], taken[i - 1]))
  }

  // A value chosen from a tally is BOTH, or a binary value with a quorum behind it.
  ghost predicate Justified(b: Board, t: Tally, i: int, v: int, quorum: int) {
    v == BOTH || (v in {0, 1} && Backed(b, t, i, v, quorum))
  }

  ghost predicate EvidenceInv(b: Board, h: History, quorum: int) {
    && (forall i {:trigger h.auxs[i]} :: 0 <= i < |h.auxs| ==> h.auxs[i] in Values(b.binValues, i))
    && (forall i {:trigger h.confs[i]} :: 0 <= i < |h.confs| ==> Justified(b, b.auxValues, i, h.confs[i], quorum))
    && (forall i {:trigger h.vals[i]} :: 0 <= i < |h.vals| ==> Justified(b, b.confValues, i, h.vals[i], quorum))
    && (forall i {:trigger h.vals[i]} :: 0 <= i < |h.vals| && h.vals[i] == BOTH ==> |Values(b.binValues, i)| >= 2)
  }

  // Round i ended with the single value v equal to the coin.
  predicate Hit(vals: seq<int>, taken: seq<int>, i: int, v: int) {
    0 <= i < |vals| && i < |taken| && v != BOTH && vals[i] == v && taken[i] == v
  }

  ghost predicate DecideInv(outs: seq<int>, decided: Option<int>, vals: seq<int>, taken: seq<int>) {
    match decided
    case None => outs == [] && forall i, v :: !Hit(vals, taken, i, v)
    case Some(v) => outs == [v] && exists i :: Hit(vals, taken, i, v)
  }

  ghost predicate HitOnce(vals: seq<int>, taken: seq<int>, v: int) {
    forall i, j | Hit(vals, taken, i, v) && Hit(vals, taken, j, v) :: i == j
  }

  // The decided value has hit twice exactly when the peer has stopped.
  ghost predicate StopInv(nd: Node) {
    && (nd.phase == Stopped ==>
          && nd.decided.Some?
          && Hit(nd.hist.vals, nd.coin.taken, nd.round, nd.decided.value)
          && exists i :: i < nd.round && Hit(nd.hist.vals, nd.coin.taken, i, nd.decided.value))
    && (nd.phase != Stopped && nd.decided.Some? ==> HitOnce(nd.hist.vals, nd.coin.taken, nd.decided.value))
  }

  ghost predicate VotesInv(nd: Node, me: Peer) {
    && BinInv(nd.board, me.f)
    && EvidenceInv(nd.board, nd.hist, me.n - me.f)
  }

  ghost predicate LogInv(nd: Node, me: Peer) {
    && SentInv(nd.sent, nd.hist, me)
    && Relayed(nd.board.estValues, nd.sent, me)
  }

  ghost predicate RoundsInv(nd: Node, me: Peer) {
    && ShapeInv(nd)
    && EstInv(nd.hist, nd.coin.taken, nd.sent, me)
    && DecideInv(nd.hist.outs, nd.decided, nd.hist.vals, nd.coin.taken)
    && StopInv(nd)
  }

  ghost predicate LocalInv(nd: Node, me: Peer) {
    && VotesInv(nd, me)
    && LogInv(nd, me)
    && RoundsInv(nd, me)
    && C.Bits(nd.coin)
  }

  lemma FreshInv(me: Peer)
    ensures LocalInv(FRESH, me)
  {
  }

  // ----- receive loop -----

  lemma EstVotes(nd: Node, me: Peer, r: int, s: int, v: int)
    requires VotesInv(nd, me)
    ensures VotesInv(HandleEst(nd, me, r, s, v), me)
  {
    hide BinInv;
    var nd' := HandleEst(nd, me, r, s, v);
    if nd' != nd {
      EstBins(nd, me, r, s, v);
      EvidenceGrows(nd.board, nd'.board, nd.hist, me.n - me.f);
    }
  }

  lemma EstBins(nd: Node, me: Peer, r: int, s: int, v: int)
    requires BinInv(nd.board, me.f)
    ensures BinInv(HandleEst(nd, me, r, s, v).board, me.f)
  {
    var b, b' := nd.board, HandleEst(nd, me, r, s, v).board;
    if s !in Senders(b.estValues, r, v) {
      var was, now := Senders(b.estValues, r, v), Senders(b'.estValues, r, v);
      assert |now| == |was| + 1;
      if |now| == 2 * me.f + 1 {
        assert v !in Values(b.binValues, r);
        DistinctAppend(Values(b.binValues, r), v);
      }
      forall r', v' ensures v' in Values(b'.binValues, r') <==> |Senders(b'.estValues, r', v')| >= 2 * me.f + 1 {
        assert v' in Values(b.binValues, r') <==> |Senders(b.estValues, r', v')| >= 2 * me.f + 1;
      }
    }
  }

  // Later votes do not take evidence away.
  ghost predicate BoardGrows(b: Board, b': Board) {
    && (forall r, v :: v in Values(b.binValues, r) ==> v in Values(b'.binValues, r))
    && (forall r :: |Values(b.binValues, r)| <= |Values(b'.binValues, r)|)
    && (forall r, v :: Senders(b.estValues, r, v) <= Senders(b'.estValues, r, v))
    && (forall r, v :: |Senders(b.auxValues, r, v)| <= |Senders(b'.auxValues, r, v)|)
    && (forall r, v :: |Senders(b.confValues, r, v)| <= |Senders(b'.confValues, r, v)|)
  }

  lemma EvidenceGrows(b: Board, b': Board, h: History, quorum: int)
    requires EvidenceInv(b, h, quorum) && BoardGrows(b, b')
    ensures EvidenceInv(b', h, quorum)
  {
    forall i | 0 <= i < |h.auxs| ensures h.auxs[i] in Values(b'.binValues, i) {
      var v := h.auxs[i];
      assert v in Values(b.binValues, i);
    }
    forall i | 0 <= i < |h.confs| ensures Justified(b', b'.auxValues, i, h.confs[i], quorum) {
      assert Justified(b, b.auxValues, i, h.confs[i], quorum);
    }
    forall i | 0 <= i < |h.vals| ensures Justified(b', b'.confValues, i, h.vals[i], quorum) {
      assert Justified(b, b.confValues, i, h.vals[i], quorum);
    }
  }

  lemma EstLog(nd: Node, me: Peer, r: int, s: int, v: int)
    requires LogInv(nd, me)
    ensures LogInv(HandleEst(nd, me, r, s, v), me)
  {
  }

  // The agreement loop's part of the state is not touched by the receive loop.
  lemma RoundsFrame(nd: Node, nd': Node, me: Peer)
    requires RoundsInv(nd, me)
    requires nd' == nd.(board := nd'.board, sent := nd'.sent, coin := nd'.coin)
    requires nd.sent <= nd'.sent && nd'.coin.taken == nd.coin.taken
    ensures RoundsInv(nd', me)
  {
  }

  lemma HandleEstInv(nd: Node, me: Peer, r: int, s: int, v: int)
    requires LocalInv(nd, me)
    ensures LocalInv(HandleEst(nd, me, r, s, v), me)
  {
    hide VotesInv, LogInv, RoundsInv, C.Bits;
    EstVotes(nd, me, r, s, v);
    EstLog(nd, me, r, s, v);
    RoundsFrame(nd, HandleEst(nd, me, r, s, v), me);
  }

  lemma AuxVotes(nd: Node, me: Peer, r: int, s: int, v: int)
    requires VotesInv(nd, me)
    ensures VotesInv(HandleAux(nd, r, s, v), me)
  {
    EvidenceGrows(nd.board, HandleAux(nd, r, s, v).board, nd.hist, me.n - me.f);
  }

  lemma HandleAuxInv(nd: Node, me: Peer, r: int, s: int, v: int)
    requires LocalInv(nd, me)
    ensures LocalInv(HandleAux(nd, r, s, v), me)
  {
    hide VotesInv, RoundsInv, C.Bits, SentInv, Relayed;
    AuxVotes(nd, me, r, s, v);
    RoundsFrame(nd, HandleAux(nd, r, s, v), me);
  }

  lemma ConfVotes(nd: Node, me: Peer, r: int, s: int, v: int)
    requires VotesInv(nd, me)
    ensures VotesInv(HandleConf(nd, r, s, v), me)
  {
    EvidenceGrows(nd.board, HandleConf(nd, r, s, v).board, nd.hist, me.n - me.f);
  }

  lemma HandleConfInv(nd: Node, me: Peer, r: int, s: int, v: int)
    requires LocalInv(nd, me)
    ensures LocalInv(HandleConf(nd, r, s, v), me)
  {
    hide VotesInv, RoundsInv, C.Bits, SentInv, Relayed;
    ConfVotes(nd, me, r, s, v);
    RoundsFrame(nd, HandleConf(nd, r, s, v), me);
  }

  lemma HandleCoinInv(nd: Node, me: Peer, m: C.Share, ok: bool)
    requires LocalInv(nd, me)
    ensures LocalInv(HandleCoin(nd, me, m, ok), me)
  {
    hide BinInv, EvidenceInv, RoundsInv, SentInv, Relayed;
    C.HandleKeepsBits(nd.coin, me.f, m, ok);
    RoundsFrame(nd, HandleCoin(nd, me, m, ok), me);
  }

  lemma HandleMsgInv(nd: Node, me: Peer, m: Msg, ok: bool)
    requires LocalInv(nd, me)
    ensures LocalInv(HandleMsg(nd, me, m, ok), me)
  {
    match m
    case Est(r, s, v) => HandleEstInv(nd, me, r, s, v);
    case Aux(r, s, v) => HandleAuxInv(nd, me, r, s, v);
    case Conf(r, s, v) => HandleConfInv(nd, me, r, s, v);
    case Coin(r, s, h) => HandleCoinInv(nd, me, C.Share(r, s, h), ok);
  }

  // ----- agreement loop -----

  lemma InputInv(nd: Node, me: Peer, v: int)
    requires LocalInv(nd, me) && nd.phase == WaitInput && v in {0, 1}
    ensures LocalInv(Input(nd, me, v), me)
  {
  }

  lemma SendAuxInv(nd: Node, me: Peer)
    requires LocalInv(nd, me) && nd.phase == WaitBinary
    ensures LocalInv(SendAux(nd, me), me)
  {
    hide C.Bits, DecideInv;
  }

  lemma AuxThresholdInv(nd: Node, me: Peer)
    requires LocalInv(nd, me) && nd.phase == WaitAux
    ensures LocalInv(AuxThreshold(nd, me), me)
  {
    hide C.Bits, DecideInv;
  }

  lemma SameHits(vals: seq<int>, vals': seq<int>, taken: seq<int>)
    requires |taken| <= |vals| && vals <= vals'
    ensures forall i, v :: Hit(vals', taken, i, v) <==> Hit(vals, taken, i, v)
  {
  }

  lemma ConfThresholdInv(nd: Node, me: Peer)
    requires LocalInv(nd, me) && nd.phase == WaitConf && me.n > me.f
    ensures LocalInv(ConfThreshold(nd, me), me)
  {
    hide C.Bits, BinInv, StopInv;
    SameHits(nd.hist.vals, ConfThreshold(nd, me).hist.vals, nd.coin.taken);
    StopStays(nd, ConfThreshold(nd, me));
  }

  lemma StopStays(nd: Node, nd': Node)
    requires StopInv(nd) && nd.phase != Stopped && nd'.phase != Stopped && nd'.decided == nd.decided
    requires forall i, v :: Hit(nd'.hist.vals, nd'.coin.taken, i, v) <==> Hit(nd.hist.vals, nd.coin.taken, i, v)
    ensures StopInv(nd')
  {
    hide Hit;
  }

  // A coin closes round k: the hits are those before and possibly round k's.
  lemma NewHit(vals: seq<int>, taken: seq<int>, coin: int)
    requires |vals| == |taken| + 1
    ensures var k := |taken|;
      forall i, v :: Hit(vals, taken + [coin], i, v) <==>
                     Hit(vals, taken, i, v) || (i == k && v != BOTH && v == vals[k] && v == coin)
  {
  }

  lemma TakeCoinDecides(nd: Node, me: Peer)
    requires ShapeInv(nd) && nd.phase == WaitCoin && nd.coin.queue != []
    requires DecideInv(nd.hist.outs, nd.decided, nd.hist.vals, nd.coin.taken) && StopInv(nd)
    ensures var nd' := TakeCoin(nd, me);
      DecideInv(nd'.hist.outs, nd'.decided, nd'.hist.vals, nd'.coin.taken) && StopInv(nd')
  {
    var nd' := TakeCoin(nd, me);
    var vals, taken, taken', k := nd.hist.vals, nd.coin.taken, nd'.coin.taken, nd.round;
    assert taken' == taken + [nd.coin.queue[0]];
    NewHit(vals, taken, nd.coin.queue[0]);
    if nd.decided.Some? {
      var i :| Hit(vals, taken, i, nd.decided.value);
      assert i < k by { HitBefore(vals, taken, i, nd.decided.value); }
      assert Hit(vals, taken', i, nd.decided.value);
      forall j | Hit(vals, taken, j, nd.decided.value) ensures j == i {
        assert HitOnce(vals, taken, nd.decided.value);
      }
    } else if nd'.decided.Some? {
      assert Hit(vals, taken', k, nd.values);
    }
  }

  lemma HitBefore(vals: seq<int>, taken: seq<int>, i: int, v: int)
    requires Hit(vals, taken, i, v)
    ensures 0 <= i < |taken|
  {
  }

  lemma TakeCoinEsts(nd: Node, me: Peer)
    requires ShapeInv(nd) && nd.phase == WaitCoin && nd.coin.queue != [] && nd.coin.queue[0] in {0, 1}
    requires EstInv(nd.hist, nd.coin.taken, nd.sent, me)
    ensures var nd' := TakeCoin(nd, me);
      ShapeInv(nd') && EstInv(nd'.hist, nd'.coin.taken, nd'.sent, me)
  {
  }

  lemma TakeCoinRounds(nd: Node, me: Peer)
    requires RoundsInv(nd, me) && nd.phase == WaitCoin && nd.coin.queue != [] && nd.coin.queue[0] in {0, 1}
    ensures RoundsInv(TakeCoin(nd, me), me)
  {
    hide ShapeInv, EstInv, DecideInv, StopInv;
    TakeCoinDecides(nd, me);
    TakeCoinEsts(nd, me);
  }

  lemma TakeCoinVotes(nd: Node, me: Peer)
    requires VotesInv(nd, me)
    ensures VotesInv(TakeCoin(nd, me), me)
  {
    hide BinInv;
  }

  lemma TakeCoinLog(nd: Node, me: Peer)
    requires LogInv(nd, me)
    ensures LogInv(TakeCoin(nd, me), me)
  {
    var nd' := TakeCoin(nd, me);
    forall m | m in nd'.sent ensures OwnMsg(m, nd'.hist, me) {
      assert m in nd.sent || m == Est(nd.round + 1, me.id, nd'.est);
    }
  }

  lemma TakeCoinInv(nd: Node, me: Peer)
    requires LocalInv(nd, me) && nd.phase == WaitCoin
    ensures LocalInv(TakeCoin(nd, me), me)
  {
    hide VotesInv, LogInv, EstInv, DecideInv, StopInv;
    if nd.coin.queue != [] {
      TakeCoinVotes(nd, me);
      TakeCoinLog(nd, me);
      TakeCoinRounds(nd, me);
    }
  }

  lemma WakeInv(nd: Node, me: Peer)
    requires LocalInv(nd, me) && me.n > me.f
    ensures LocalInv(Wake(nd, me), me)
  {
    match nd.phase
    case WaitBinary => SendAuxInv(nd, me);
    case WaitAux => AuxThresholdInv(nd, me);
    case WaitConf => ConfThresholdInv(nd, me);
    case WaitCoin => TakeCoinInv(nd, me);
    case WaitInput =>
    case Stopped =>
  }
}
