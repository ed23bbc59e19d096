// One peer's binary agreement (src/consensus/aba.go) as pure state transitions.
// AbaInstance.dfy shows that the imperative object takes exactly these steps.

module AbaNode {
  import opened Options
  import C = CoinQueue

  const BOTH := -1

  // The four messages of one instance. A coin share carries the first byte of
  // its hash, the only part of it the coin depends on.
  datatype Msg =
    | Est(round: int, sender: int, value: int)
    | Aux(round: int, sender: int, value: int)
    | Conf(round: int, sender: int, value: int)
    | Coin(round: int, sender: int, head: nat)

  // The votes accepted for one kind of message, newest first; the code keeps
  // them as round -> value -> list of senders.
  datatype Tally = NoVotes | Cast(rest: Tally, round: int, value: int, sender: int)

  function Senders(t: Tally, r: int, v: int): set<int> {
    match t
    case NoVotes => {}
    case Cast(rest, r', v', s) => if r' == r && v' == v then Senders(rest, r, v) + {s} else Senders(rest, r, v)
  }

  // The binary values in the order they were added; the code keeps them as
  // round -> list of values.
  datatype Bins = NoBins | Add(rest: Bins, round: int, value: int)

  function Values(b: Bins, r: int): seq<int> {
    match b
    case NoBins => []
    case Add(rest, r', v) => if r' == r then Values(rest, r) + [v] else Values(rest, r)
  }

  // The place the agreement loop is blocked at: run is one loop of waits.
  datatype Phase = WaitInput | WaitBinary | WaitAux | WaitConf | WaitCoin | Stopped

  // Votes collected by the receive loop.
  datatype Board = Board(estValues: Tally, auxValues: Tally, confValues: Tally, binValues: Bins)

  // Not read by the code: per round the estimate entered with, the AUX and CONF
  // sent and the value confThreshold returned; and all outputs emitted.
  datatype History = History(ests: seq<int>, auxs: seq<int>, confs: seq<int>, vals: seq<int>, outs: seq<int>)

  datatype Node = Node(
    phase: Phase, round: int, est: int, values: int, decided: Option<int>,
    board: Board, coin: C.Box, sent: set<Msg>, hist: History)

  // Who the node is; hash gives the first byte of the coin hash of a round.
  datatype Peer = Peer(n: nat, f: nat, id: int, hash: int -> nat)

  const FRESH := Node(WaitInput, 0, 0, 0, None,
                      Board(NoVotes, NoVotes, NoVotes, NoBins), C.EMPTY, {}, History([], [], [], [], []))

  // ----- receive loop -----

  // estSent[r][v]: the flag is set exactly by broadcasting, so the broadcast log
  // stands for it.
  predicate EstSent(nd: Node, me: Peer, r: int, v: int) {
    Est(r, me.id, v) in nd.sent
  }

  function HandleEst(nd: Node, me: Peer, r: int, s: int, v: int): Node {
    if s in Senders(nd.board.estValues, r, v) then nd
    else
      var est := Cast(nd.board.estValues, r, v, s);
      var count := |Senders(est, r, v)|;
      var sent := if count == me.f + 1 && !EstSent(nd, me, r, v) then nd.sent + {Est(r, me.id, v)} else nd.sent;
      var bin := if count == 2 * me.f + 1 then Add(nd.board.binValues, r, v) else nd.board.binValues;
      nd.(board := nd.board.(estValues := est, binValues := bin), sent := sent)
  }

  function HandleAux(nd: Node, r: int, s: int, v: int): Node {
    if s in Senders(nd.board.auxValues, r, v) then nd
    else nd.(board := nd.board.(auxValues := Cast(nd.board.auxValues, r, v, s)))
  }

  function HandleConf(nd: Node, r: int, s: int, v: int): Node {
    if s in Senders(nd.board.confValues, r, v) then nd
    else nd.(board := nd.board.(confValues := Cast(nd.board.confValues, r, v, s)))
  }

  function HandleCoin(nd: Node, me: Peer, m: C.Share, ok: bool): Node {
    nd.(coin := C.Handle(nd.coin, me.f, m, ok))
  }

  // handleMsg; ok is the verdict of VerifySignature, read for coin shares only.
  function HandleMsg(nd: Node, me: Peer, m: Msg, ok: bool): Node {
    match m
    case Est(r, s, v) => HandleEst(nd, me, r, s, v)
    case Aux(r, s, v) => HandleAux(nd, r, s, v)
    case Conf(r, s, v) => HandleConf(nd, r, s, v)
    case Coin(r, s, h) => HandleCoin(nd, me, C.Share(r, s, h), ok)
  }

  // ----- agreement loop -----

  // The input arrives: round 0 starts. The code skips the broadcast when it has
  // been made already, which leaves the log as it is.
  function Input(nd: Node, me: Peer, v: int): Node {
    nd.(est := v, phase := WaitBinary, sent := nd.sent + {Est(nd.round, me.id, v)},
        hist := nd.hist.(ests := nd.hist.ests + [v]))
  }

  // Binary values are not empty: send AUX for the last one.
  function SendAux(nd: Node, me: Peer): Node {
    var vs := Values(nd.board.binValues, nd.round);
    if vs == [] then nd
    else
      var b := vs[|vs| - 1];
      nd.(phase := WaitAux, sent := nd.sent + {Aux(nd.round, me.id, b)},
          hist := nd.hist.(auxs := nd.hist.auxs + [b]))
  }

  // len(t[r][v]) summed over a list of values
  function CountOver(t: Tally, r: int, vs: seq<int>): nat {
    if vs == [] then 0 else CountOver(t, r, vs[..|vs| - 1]) + |Senders(t, r, vs[|vs| - 1])|
  }

  lemma CountThree(t: Tally, r: int)
    ensures CountOver(t, r, [BOTH, 0, 1]) == |Senders(t, r, BOTH)| + |Senders(t, r, 0)| + |Senders(t, r, 1)|
  {
    var vs := [BOTH, 0, 1];
    assert vs[..2] == [BOTH, 0] && vs[..2][..1] == [BOTH] && vs[..2][..1][..0] == [];
    assert CountOver(t, r, vs) == CountOver(t, r, vs[..2]) + |Senders(t, r, 1)|;
    assert CountOver(t, r, vs[..2]) == CountOver(t, r, vs[..2][..1]) + |Senders(t, r, 0)|;
    assert CountOver(t, r, vs[..2][..1]) == CountOver(t, r, []) + |Senders(t, r, BOTH)|;
  }

  predicate Backed(b: Board, t: Tally, r: int, v: int, quorum: int) {
    v in Values(b.binValues, r) && |Senders(t, r, v)| >= quorum
  }

  // The value auxThreshold puts in the CONF message, if any.
  function AuxChoice(b: Board, r: int, quorum: int): Option<int> {
    if Backed(b, b.auxValues, r, 1, quorum) then Some(1)
    else if Backed(b, b.auxValues, r, 0, quorum) then Some(0)
    else if CountOver(b.auxValues, r, Values(b.binValues, r)) >= quorum then Some(BOTH)
    else None
  }

  function AuxThreshold(nd: Node, me: Peer): Node {
    match AuxChoice(nd.board, nd.round, me.n - me.f)
    case None => nd
    case Some(v) =>
      nd.(phase := WaitConf, sent := nd.sent + {Conf(nd.round, me.id, v)},
          hist := nd.hist.(confs := nd.hist.confs + [v]))
  }

  // The value confThreshold returns, if any.
  function ConfChoice(b: Board, r: int, quorum: int): Option<int> {
    if Backed(b, b.confValues, r, 1, quorum) then Some(1)
    else if Backed(b, b.confValues, r, 0, quorum) then Some(0)
    else
      var count := if |Values(b.binValues, r)| == 2
                   then CountOver(b.confValues, r, [BOTH, 0, 1]) else 0;
      if count >= quorum then Some(BOTH) else None
  }

  function ConfThreshold(nd: Node, me: Peer): Node {
    match ConfChoice(nd.board, nd.round, me.n - me.f)
    case None => nd
    case Some(v) =>
      nd.(phase := WaitCoin, values := v, sent := nd.sent + {Coin(nd.round, me.id, me.hash(nd.round))},
          hist := nd.hist.(vals := nd.hist.vals + [v]))
  }

  // The next estimate out of a round's value and coin.
  function NextEst(values: int, coin: int): int {
    if values == BOTH then coin else values
  }

  // setNewEst: the node after it, and whether it returns stop.
  function SetNewEst(nd: Node, coin: int): (Node, bool) {
    var n1 := nd.(est := NextEst(nd.values, coin));
    if nd.values != BOTH && nd.values == coin then
      if nd.decided.None?
      then (n1.(decided := Some(nd.values), hist := nd.hist.(outs := nd.hist.outs + [nd.values])), false)
      else (n1, nd.decided.value == nd.values)
    else (n1, false)
  }

  // A coin is on the channel: decide, stop or enter the next round.
  function TakeCoin(nd: Node, me: Peer): Node {
    if nd.coin.queue == [] then nd
    else
      var (n1, stop) := SetNewEst(nd.(coin := C.Take(nd.coin)), nd.coin.queue[0]);
      if stop then n1.(phase := Stopped)
      else
        n1.(phase := WaitBinary, round := nd.round + 1, sent := nd.sent + {Est(nd.round + 1, me.id, n1.est)},
            hist := n1.hist.(ests := n1.hist.ests + [n1.est]))
  }

  // The loop is woken up wherever it is blocked.
  function Wake(nd: Node, me: Peer): Node {
    match nd.phase
    case WaitBinary => SendAux(nd, me)
    case WaitAux => AuxThreshold(nd, me)
    case WaitConf => ConfThreshold(nd, me)
    case WaitCoin => TakeCoin(nd, me)
    case WaitInput => nd
    case Stopped => nd
  }
}
