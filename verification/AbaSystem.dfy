// One binary agreement instance across all peers: every interleaving of inputs,
// deliveries and loop wake-ups at the correct peers, with up to f peers sending
// anything in their own name.

module AbaSystem {
  import opened Quorum
  import opened AbaNode
  import opened AbaLocal
  import C = CoinQueue

  // hash(r) is the first byte of the hash the code builds for round r's coin.
  datatype Cfg = Cfg(n: nat, f: nat, faulty: set<int>, hash: int -> nat)

  ghost predicate ValidCfg(c: Cfg) {
    FaultModel(c.n, c.f, c.faulty)
  }

  function Correct(c: Cfg): set<int> {
    Peers(c.n) - c.faulty
  }

  function PeerOf(c: Cfg, p: int): Peer {
    Peer(c.n, c.f, p, c.hash)
  }

  // The correct peers' states; the network is what they have sent, and a faulty
  // peer may at any time have sent any message in its own name to anyone.
  type Sys = map<int, Node>

  ghost predicate Complete(c: Cfg, s: Sys) {
    forall p :: p in Correct(c) ==> p in s
  }

  predicate Available(c: Cfg, s: Sys, m: Msg) {
    && m.sender in Peers(c.n)
    && (m.sender in c.faulty || (m.sender in s && m in s[m.sender].sent))
  }

  ghost predicate Init(c: Cfg, s: Sys) {
    Complete(c, s) && forall p :: p in Correct(c) ==> s[p] == FRESH
  }

  datatype Step =
    | Give(p: int, v: int)                 // the epoch gives p its input
    | Deliver(p: int, m: Msg, ok: bool)    // p handles m; ok: its signature verifies
    | WakeUp(p: int)                       // p's loop is woken up

  // Nothing is assumed of any message but its sender field; see Paced and Ordered
  // below for what agreement needs of coin shares.
  ghost predicate Enabled(c: Cfg, s: Sys, step: Step) {
    && step.p in Correct(c) && step.p in s
    && match step
       case Give(p, v) => s[p].phase == WaitInput && v in {0, 1}
       case Deliver(p, m, ok) => Available(c, s, m)
       case WakeUp(p) => true
  }

  function After(c: Cfg, nd: Node, step: Step): Node {
    match step
    case Give(p, v) => Input(nd, PeerOf(c, p), v)
    case Deliver(p, m, ok) => HandleMsg(nd, PeerOf(c, p), m, ok)
    case WakeUp(p) => Wake(nd, PeerOf(c, p))
  }

  ghost predicate Next(c: Cfg, s: Sys, step: Step, s': Sys) {
    Enabled(c, s, step) && s' == s[step.p := After(c, s[step.p], step)]
  }

  ghost predicate Steps(c: Cfg, s: Sys, s': Sys) {
    exists step :: Next(c, s, step, s')
  }

  ghost predicate IsRun(c: Cfg, run: seq<Sys>) {
    && run != []
    && Init(c, run[0])
    && forall i :: 0 < i < |run| ==> Steps(c, run[i - 1], run[i])
  }

  // ----- the invariant of the whole system -----

  datatype Ballot = OfEst | OfAux | OfConf

  function Vote(b: Ballot, r: int, x: int, v: int): Msg {
    match b
    case OfEst => Est(r, x, v)
    case OfAux => Aux(r, x, v)
    case OfConf => Conf(r, x, v)
  }

  // Every recorded vote was sent by the peer it is recorded for.
  ghost predicate VotesFrom(c: Cfg, s: Sys, b: Ballot, t: Tally) {
    forall r, v, x {:trigger x in Senders(t, r, v)} :: x in Senders(t, r, v) ==> Available(c, s, Vote(b, r, x, v))
  }

  ghost predicate Received(c: Cfg, s: Sys, b: Board) {
    && VotesFrom(c, s, OfEst, b.estValues)
    && VotesFrom(c, s, OfAux, b.auxValues)
    && VotesFrom(c, s, OfConf, b.confValues)
  }

  predicate EnteredWith(nd: Node, r: int, v: int) {
    0 <= r < |nd.hist.ests| && nd.hist.ests[r] == v
  }

  // Some correct peer entered round r with estimate v.
  ghost predicate Estimated(c: Cfg, s: Sys, r: int, v: int) {
    exists q :: q in Correct(c) && q in s && EnteredWith(s[q], r, v)
  }

  ghost predicate EstsJustified(c: Cfg, s: Sys) {
    forall p, r, v :: p in Correct(c) && p in s && Est(r, p, v) in s[p].sent ==> Estimated(c, s, r, v)
  }

  ghost predicate Inv(c: Cfg, s: Sys) {
    && Complete(c, s)
    && (forall p :: p in Correct(c) ==> LocalInv(s[p], PeerOf(c, p)))
    && (forall p :: p in Correct(c) ==> Received(c, s, s[p].board))
    && EstsJustified(c, s)
  }

  lemma InitInv(c: Cfg, s: Sys)
    requires Init(c, s)
    ensures Inv(c, s)
  {
    forall p | p in Correct(c) ensures LocalInv(s[p], PeerOf(c, p)) {
      FreshInv(PeerOf(c, p));
    }
  }

  // ----- one step at one peer -----

  ghost predicate HistGrows(h: History, h': History) {
    h.ests <= h'.ests && h.auxs <= h'.auxs && h.confs <= h'.confs && h.vals <= h'.vals && h.outs <= h'.outs
  }

  ghost predicate NodeGrows(nd: Node, nd': Node) {
    nd.sent <= nd'.sent && HistGrows(nd.hist, nd'.hist) && nd.coin.taken <= nd'.coin.taken
  }

  lemma WakeGrows(nd: Node, me: Peer)
    ensures NodeGrows(nd, Wake(nd, me)) && Wake(nd, me).board == nd.board
  {
    match nd.phase
    case WaitBinary => assert NodeGrows(nd, SendAux(nd, me));
    case WaitAux => assert NodeGrows(nd, AuxThreshold(nd, me));
    case WaitConf => assert NodeGrows(nd, ConfThreshold(nd, me));
    case WaitCoin => TakeCoinGrows(nd, me);
    case WaitInput =>
    case Stopped =>
  }

  lemma TakeCoinGrows(nd: Node, me: Peer)
    ensures NodeGrows(nd, TakeCoin(nd, me)) && TakeCoin(nd, me).board == nd.board
  {
  }

  lemma StepGrows(c: Cfg, nd: Node, step: Step)
    ensures NodeGrows(nd, After(c, nd, step))
  {
    match step
    case Give(p, v) =>
    case Deliver(p, m, ok) =>
    case WakeUp(p) => WakeGrows(nd, PeerOf(c, p));
  }

  lemma GrowsTrans(a: Node, b: Node, d: Node)
    requires NodeGrows(a, b) && NodeGrows(b, d)
    ensures NodeGrows(a, d)
  {
  }

  // Only an input ends the wait for it.
  lemma InputOnly(c: Cfg, nd: Node, step: Step)
    ensures After(c, nd, step).phase == WaitInput <==> nd.phase == WaitInput && !step.Give?
  {
    if step.WakeUp? {
      assert nd.phase != WaitInput ==> Wake(nd, PeerOf(c, step.p)).phase != WaitInput;
    }
  }

  lemma StepLocal(c: Cfg, s: Sys, step: Step)
    requires ValidCfg(c) && Inv(c, s) && Enabled(c, s, step)
    ensures LocalInv(After(c, s[step.p], step), PeerOf(c, step.p))
  {
    match step
    case Give(p, v) => InputInv(s[p], PeerOf(c, p), v);
    case Deliver(p, m, ok) => HandleMsgInv(s[p], PeerOf(c, p), m, ok);
    case WakeUp(p) => WakeInv(s[p], PeerOf(c, p));
  }

  // Every vote on a board after a step was available before it: only a delivery
  // adds a vote, and only the one it carries.
  lemma VotesAvailable(c: Cfg, s: Sys, nd: Node, step: Step)
    requires Received(c, s, nd.board)
    requires step.Deliver? ==> Available(c, s, step.m)
    ensures Received(c, s, After(c, nd, step).board)
  {
    hide Available;
    if step.WakeUp? {
      WakeGrows(nd, PeerOf(c, step.p));
    } else if step.Deliver? {
      OneVote(c, s, nd, PeerOf(c, step.p), step.m, step.ok);
    }
  }

  lemma OneVote(c: Cfg, s: Sys, nd: Node, me: Peer, m: Msg, ok: bool)
    requires Received(c, s, nd.board) && Available(c, s, m)
    ensures Received(c, s, HandleMsg(nd, me, m, ok).board)
  {
    hide Available, VotesFrom, Senders;
    var b := nd.board;
    match m
    case Est(r, x, v) => CastVote(c, s, OfEst, b.estValues, r, v, x);
    case Aux(r, x, v) => CastVote(c, s, OfAux, b.auxValues, r, v, x);
    case Conf(r, x, v) => CastVote(c, s, OfConf, b.confValues, r, v, x);
    case Coin(_, _, _) =>
  }

  lemma CastVote(c: Cfg, s: Sys, b: Ballot, t: Tally, r: int, v: int, x: int)
    requires VotesFrom(c, s, b, t) && Available(c, s, Vote(b, r, x, v))
    ensures VotesFrom(c, s, b, Cast(t, r, v, x))
  {
    hide Available;
    forall r', v', x' | x' in Senders(Cast(t, r, v, x), r', v') ensures Available(c, s, Vote(b, r', x', v')) {
      assert x' in Senders(t, r', v') || (r' == r && v' == v && x' == x);
    }
  }

  ghost predicate NetGrows(c: Cfg, s: Sys, s': Sys) {
    forall m :: Available(c, s, m) ==> Available(c, s', m)
  }

  lemma StepNet(c: Cfg, s: Sys, step: Step, s': Sys)
    requires Next(c, s, step, s')
    ensures NetGrows(c, s, s')
  {
    StepGrows(c, s[step.p], step);
  }

  lemma StillReceived(c: Cfg, s: Sys, s': Sys, b: Board)
    requires Received(c, s, b) && NetGrows(c, s, s')
    ensures Received(c, s', b)
  {
  }

  lemma StepReceived(c: Cfg, s: Sys, step: Step, s': Sys, q: int)
    requires Inv(c, s) && Next(c, s, step, s') && q in Correct(c)
    ensures Received(c, s', s'[q].board)
  {
    StepNet(c, s, step, s');
    if step.p == q {
      VotesAvailable(c, s, s[q], step);
    }
    StillReceived(c, s, s', s'[q].board);
  }

  // A peer broadcasts EST only for an estimate it enters with or on f+1 votes.
  lemma NewEst(c: Cfg, nd: Node, step: Step, r: int, v: int)
    requires ShapeInv(nd) && (step.Give? ==> nd.phase == WaitInput)
    requires Est(r, step.p, v) in After(c, nd, step).sent && Est(r, step.p, v) !in nd.sent
    ensures var nd' := After(c, nd, step);
      EnteredWith(nd', r, v) || |Senders(nd'.board.estValues, r, v)| >= c.f + 1
  {
  }

  lemma VotersEstimated(c: Cfg, s: Sys, b: Board, r: int, v: int)
    requires ValidCfg(c) && EstsJustified(c, s) && Received(c, s, b)
    requires |Senders(b.estValues, r, v)| >= c.f + 1
    ensures Estimated(c, s, r, v)
  {
    var voters := Senders(b.estValues, r, v);
    forall x | x in voters ensures x in Peers(c.n) {
      assert Available(c, s, Est(r, x, v));
    }
    var x := SomeCorrect(c.n, c.f, c.faulty, voters);
    assert Available(c, s, Est(r, x, v));
  }

  lemma EstimatedGrows(c: Cfg, s: Sys, step: Step, s': Sys, r: int, v: int)
    requires Next(c, s, step, s') && Estimated(c, s, r, v)
    ensures Estimated(c, s', r, v)
  {
    StepGrows(c, s[step.p], step);
    var q :| q in Correct(c) && q in s && EnteredWith(s[q], r, v);
    assert EnteredWith(s'[q], r, v);
  }

  lemma StepJustified(c: Cfg, s: Sys, step: Step, s': Sys, q: int, r: int, v: int)
    requires ValidCfg(c) && Inv(c, s) && Next(c, s, step, s')
    requires q in Correct(c) && q in s' && Est(r, q, v) in s'[q].sent
    ensures Estimated(c, s', r, v)
  {
    if Est(r, q, v) in s[q].sent {
      EstimatedGrows(c, s, step, s', r, v);
    } else {
      NewEst(c, s[q], step, r, v);
      if EnteredWith(s'[q], r, v) {
      } else {
        VotesAvailable(c, s, s[q], step);
        VotersEstimated(c, s, s'[q].board, r, v);
        EstimatedGrows(c, s, step, s', r, v);
      }
    }
  }

  lemma NextInv(c: Cfg, s: Sys, step: Step, s': Sys)
    requires ValidCfg(c) && Inv(c, s) && Next(c, s, step, s')
    ensures Inv(c, s')
  {
    hide LocalInv, Received;
    StepLocal(c, s, step);
    forall q | q in Correct(c) ensures Received(c, s', s'[q].board) {
      StepReceived(c, s, step, s', q);
    }
    forall q, r, v | q in Correct(c) && q in s' && Est(r, q, v) in s'[q].sent ensures Estimated(c, s', r, v) {
      StepJustified(c, s, step, s', q, r, v);
    }
  }

  // The invariant holds in every state of every run.
  lemma {:induction false} RunInv(c: Cfg, run: seq<Sys>, i: nat)
    requires ValidCfg(c) && IsRun(c, run) && i < |run|
    ensures Inv(c, run[i])
  {
    if i == 0 {
      InitInv(c, run[0]);
    } else {
      RunInv(c, run, i - 1);
      var step :| Next(c, run[i - 1], step, run[i]);
      NextInv(c, run[i - 1], step, run[i]);
    }
  }

  lemma StepsGrow(c: Cfg, s: Sys, s': Sys, p: int)
    requires Steps(c, s, s') && p in s
    ensures p in s' && NodeGrows(s[p], s'[p])
  {
    var step :| Next(c, s, step, s');
    StepGrows(c, s[step.p], step);
  }

  // What a correct peer has sent or recorded stays.
  lemma {:induction false} RunGrows(c: Cfg, run: seq<Sys>, i: nat, j: nat, p: int)
    requires IsRun(c, run) && i <= j < |run| && p in Correct(c)
    ensures p in run[i] && p in run[j] && NodeGrows(run[i][p], run[j][p])
    decreases j
  {
    if 0 < j {
      assert Steps(c, run[j - 1], run[j]);
      if i < j {
        RunGrows(c, run, i, j - 1, p);
        StepsGrow(c, run[j - 1], run[j], p);
        GrowsTrans(run[i][p], run[j - 1][p], run[j][p]);
      } else {
        RunGrows(c, run, j - 1, j - 1, p);
        StepsGrow(c, run[j - 1], run[j], p);
      }
    }
  }

  // ----- coins in step -----

  // The step handles coin share m with a signature that verifies.
  predicate Accepts(step: Step, m: C.Share) {
    step.Deliver? && step.ok && step.m == Coin(m.round, m.sender, m.head)
  }

  // An accepted share completes no round ahead of a lower one, and the one that
  // completes a round gives its bit.
  ghost predicate Paced(c: Cfg, s: Sys, step: Step) {
    forall m {:trigger Accepts(step, m)} :: Accepts(step, m) ==>
      step.p in s && C.Due(s[step.p].coin, c.f, c.hash, m)
  }

  // An accepted share carries its round's hash, and those of the senders in `who`
  // come in round order with none skipped.
  ghost predicate Ordered(c: Cfg, s: Sys, step: Step, who: set<int>) {
    forall m {:trigger Accepts(step, m)} :: Accepts(step, m) ==>
      step.p in s && m.head == c.hash(m.round) && (m.sender in who ==> C.InOrder(s[step.p].coin, m))
  }

  // At every correct peer the i-th bit is round i's coin.
  ghost predicate InStep(c: Cfg, s: Sys) {
    Complete(c, s) && forall p :: p in Correct(c) ==> C.InSync(s[p].coin, c.hash)
  }

  ghost predicate InOrder(c: Cfg, s: Sys) {
    Complete(c, s) && forall p :: p in Correct(c) ==> C.Inv(s[p].coin, c.f, c.hash)
  }

  // Correct peers that took a bit in the same round took the same.
  ghost predicate CommonCoin(c: Cfg, s: Sys) {
    forall p, q, r | p in Correct(c) && q in Correct(c) && p in s && q in s
                     && 0 <= r < |s[p].coin.taken| && r < |s[q].coin.taken|
      :: s[p].coin.taken[r] == s[q].coin.taken[r]
  }

  lemma InStepCommon(c: Cfg, s: Sys)
    requires InStep(c, s)
    ensures CommonCoin(c, s)
  {
  }

  // Only a coin share or a received bit changes a peer's coins.
  lemma CoinStep(c: Cfg, nd: Node, step: Step)
    ensures var b, b' := nd.coin, After(c, nd, step).coin;
      b' == b
      || (b.queue != [] && b' == C.Take(b))
      || (step.Deliver? && step.m.Coin?
          && b' == C.Handle(b, c.f, C.Share(step.m.round, step.m.sender, step.m.head), step.ok))
  {
  }

  lemma PacedKeeps(c: Cfg, s: Sys, step: Step, s': Sys)
    requires InStep(c, s) && Next(c, s, step, s') && Paced(c, s, step)
    ensures InStep(c, s')
  {
    hide After, C.InSync, C.Handle, C.Due;
    var b, b' := s[step.p].coin, s'[step.p].coin;
    CoinStep(c, s[step.p], step);
    if b.queue != [] && b' == C.Take(b) {
      C.TakeKeepsSync(b, c.hash);
    } else if b' != b {
      var m := C.Share(step.m.round, step.m.sender, step.m.head);
      assert step.ok ==> Accepts(step, m);
      C.HandleKeepsSync(b, c.f, c.hash, m, step.ok);
    }
  }

  // If every peer's shares come in order, no round completes ahead of a lower one.
  lemma OrderedKeeps(c: Cfg, s: Sys, step: Step, s': Sys)
    requires InOrder(c, s) && Next(c, s, step, s') && Ordered(c, s, step, Peers(c.n))
    ensures InOrder(c, s') && Paced(c, s, step)
  {
    hide After, C.Inv, C.Handle, C.Due, C.InOrder;
    var b, b' := s[step.p].coin, s'[step.p].coin;
    forall m | Accepts(step, m) ensures C.Due(b, c.f, c.hash, m) {
      C.CompletesNext(b, c.f, c.hash, m);
    }
    CoinStep(c, s[step.p], step);
    if b.queue != [] && b' == C.Take(b) {
      C.TakeKeepsInv(b, c.f, c.hash);
    } else if b' != b {
      var m := C.Share(step.m.round, step.m.sender, step.m.head);
      assert step.ok ==> Accepts(step, m);
      C.HandleKeepsInv(b, c.f, c.hash, m, step.ok);
    }
  }

  lemma InitInStep(c: Cfg, s: Sys)
    requires Init(c, s)
    ensures InStep(c, s) && InOrder(c, s)
  {
    C.EmptyInv(c.f, c.hash);
  }
}
