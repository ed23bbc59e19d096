// One epoch across all peers: lotteries, one binary agreement instance per
// lottery, and decisions. Each instance takes the steps of AbaSystem.

module EpochSystem {
  import opened Options
  import opened Quorum
  import opened EpochNode
  import opened Certificates
  import N = AbaNode
  import A = AbaSystem

  // coin(j) gives the coin hashes of instance j, lot(j) the first byte of the
  // hash the code builds for lottery j, sha the hash of a proposal.
  datatype Cfg = Cfg(n: nat, f: nat, faulty: set<int>, coin: int -> (int -> nat), lot: int -> nat,
                     sha: seq<seq<QuorumCert>> -> Hash)

  ghost predicate ValidCfg(c: Cfg) {
    FaultModel(c.n, c.f, c.faulty)
  }

  function Correct(c: Cfg): set<int> {
    Peers(c.n) - c.faulty
  }

  function Instance(c: Cfg, j: int): A.Cfg {
    A.Cfg(c.n, c.f, c.faulty, c.coin(j))
  }

  // The producer lottery j elects.
  function Producer(c: Cfg, j: int): int
    requires c.n > 0
  {
    c.lot(j) % c.n
  }

  // log lists every event ever put on the node's channel, next of them handled.
  datatype Node = Node(epoch: Epoch, lotteries: Shares, record: Record, log: seq<Event>, next: nat)

  // abas[j] is binary agreement instance j at all peers.
  datatype Sys = Sys(nodes: map<int, Node>, abas: seq<A.Sys>)

  ghost predicate Complete(c: Cfg, s: Sys) {
    && (forall p :: p in Correct(c) ==> p in s.nodes && 0 <= s.nodes[p].next <= |s.nodes[p].log|)
    && |s.abas| == c.n
    && (forall j :: 0 <= j < c.n ==> A.Complete(Instance(c, j), s.abas[j]))
  }

  ghost predicate Init(c: Cfg, s: Sys) {
    && Complete(c, s)
    && (forall p :: p in Correct(c) ==> s.nodes[p] == Node(START, NoShares, Blank, [], 0))
    && (forall j :: 0 <= j < c.n ==> A.Init(Instance(c, j), s.abas[j]))
  }

  datatype Step =
    | Cbc(p: int, candidate: int, body: Body)               // a candidate's broadcast delivers
    | Resend(p: int, candidate: int, qcs: seq<seq<QuorumCert>>) // a later SEND overwrites the delivered proposal
    | Share(p: int, j: int, sender: int, head: nat, ok: bool) // lottery j handles a share
    | InAba(j: int, step: A.Step)                           // instance j takes a step of its own
    | Handle(p: int)                                        // the epoch handles its next event
    | Decide(p: int, d: Decision, out: Option<Decision>)    // p handles a decision message

  // A decision is in a faulty peer's own name or was broadcast by a correct peer.
  // The undelivered one is in nobody's name, and anyone may send it.
  ghost predicate DecisionSent(c: Cfg, s: Sys, d: Decision) {
    || d == UNDELIVERED
    || d.sender in c.faulty
    || exists q :: q in Correct(c) && q in s.nodes && d in s.nodes[q].epoch.decisions
  }

  ghost predicate Enabled(c: Cfg, s: Sys, step: Step)
    requires Complete(c, s)
  {
    match step
    case Cbc(p, candidate, body) => p in Correct(c)
    case Resend(p, candidate, qcs) => p in Correct(c) && candidate in s.nodes[p].epoch.cbcOuts
    case Share(p, j, x, head, ok) =>
      && p in Correct(c) && 0 <= j < c.n && x in Peers(c.n)
      && (x in Correct(c) ==> j in s.nodes[x].epoch.shares)
      && (ok ==> head == c.lot(j))
    case InAba(j, st) => 0 <= j < c.n && !st.Give? && A.Enabled(Instance(c, j), s.abas[j], st)
    case Handle(p) =>
      && p in Correct(c) && s.nodes[p].next < |s.nodes[p].log|
      && var ev := s.nodes[p].log[s.nodes[p].next];
         // InputEST blocks until the instance waits for its input
         ev.LotteryOut? ==> 0 <= ev.times < c.n && s.abas[ev.times][p].phase == N.WaitInput
    case Decide(p, d, out) =>
      && p in Correct(c) && DecisionSent(c, s, d) && Answer(c, s.nodes[p].record, d, out)
  }

  // What handling decision d may put on the channel: nothing for a duplicate, else
  // some emitted decision, and nothing only if there is none.
  ghost predicate Answer(c: Cfg, r: Record, d: Decision, out: Option<Decision>) {
    var dup := d.sender in Deciders(r, d.producer);
    match out
    case Some(e) => !dup && Emits(HandleDecision(r, d), c.f, c.sha, e)
    case None => dup || forall e :: !Emits(HandleDecision(r, d), c.f, c.sha, e)
  }

  function Emit(nd: Node, ev: Event): Node {
    nd.(log := nd.log + [ev])
  }

  // Instance j takes step st.
  function AbaStep(c: Cfg, abas: seq<A.Sys>, j: int, st: A.Step): seq<A.Sys>
    requires 0 <= j < |abas| && st.p in abas[j]
  {
    abas[j := abas[j][st.p := A.After(Instance(c, j), abas[j][st.p], st)]]
  }

  // What handling event ev gives to an agreement instance.
  function Input(c: Cfg, nd: Node, p: int, ev: Event): A.Step
    requires ev.LotteryOut?
  {
    A.Give(p, AbaInput(nd.epoch, ev.producer))
  }

  function HandleNext(c: Cfg, nd: Node, p: int): Node
    requires 0 <= nd.next < |nd.log|
  {
    nd.(epoch := HandleEvent(nd.epoch, c.f, p, nd.log[nd.next]), next := nd.next + 1)
  }

  function TakeShare(c: Cfg, nd: Node, j: int, x: int, head: nat, ok: bool): Node
    requires c.n > 0
  {
    var nd1 := nd.(lotteries := HandleLottery(nd.lotteries, j, x, ok));
    if Fires(nd.lotteries, c.f, j, x, ok) then Emit(nd1, LotteryOut(j, head % c.n)) else nd1
  }

  // A new output of instance j goes on the channel.
  function Relay(nd: Node, before: N.Node, after: N.Node, j: int): Node {
    if |after.hist.outs| > |before.hist.outs| then Emit(nd, AbaOut(after.hist.outs[|before.hist.outs|], j)) else nd
  }

  function TakeDecision(nd: Node, d: Decision, out: Option<Decision>): Node {
    var nd1 := nd.(record := HandleDecision(nd.record, d));
    if out.Some? then Emit(nd1, DecisionOut(out.value)) else nd1
  }

  function Actor(step: Step): int {
    if step.InAba? then step.step.p else step.p
  }

  function NodeAfter(c: Cfg, s: Sys, step: Step): Node
    requires c.n > 0 && Complete(c, s) && Enabled(c, s, step)
  {
    var p := Actor(step);
    var nd := s.nodes[p];
    match step
    case Cbc(_, candidate, body) => Emit(nd, CbcOut(candidate, body))
    case Resend(_, candidate, qcs) => nd.(epoch := Overwrite(nd.epoch, candidate, qcs))
    case Share(_, j, x, head, ok) => TakeShare(c, nd, j, x, head, ok)
    case InAba(j, st) => Relay(nd, s.abas[j][p], A.After(Instance(c, j), s.abas[j][p], st), j)
    case Handle(_) => HandleNext(c, nd, p)
    case Decide(_, d, out) => TakeDecision(nd, d, out)
  }

  function AbasAfter(c: Cfg, s: Sys, step: Step): seq<A.Sys>
    requires c.n > 0 && Complete(c, s) && Enabled(c, s, step)
  {
    match step
    case InAba(j, st) => AbaStep(c, s.abas, j, st)
    case Handle(p) =>
      var nd := s.nodes[p];
      var ev := nd.log[nd.next];
      if ev.LotteryOut? then AbaStep(c, s.abas, ev.times, Input(c, nd, p, ev)) else s.abas
    case Cbc(_, _, _) => s.abas
    case Resend(_, _, _) => s.abas
    case Share(_, _, _, _, _) => s.abas
    case Decide(_, _, _) => s.abas
  }

  ghost predicate Next(c: Cfg, s: Sys, step: Step, s': Sys) {
    && c.n > 0 && Complete(c, s) && Enabled(c, s, step)
    && s' == Sys(s.nodes[Actor(step) := NodeAfter(c, s, step)], AbasAfter(c, s, step))
  }

  ghost predicate Steps(c: Cfg, s: Sys, s': Sys) {
    exists step :: Next(c, s, step, s')
  }

  ghost predicate IsRun(c: Cfg, run: seq<Sys>) {
    && run != []
    && Init(c, run[0])
    && forall i :: 0 < i < |run| ==> Steps(c, run[i - 1], run[i])
  }
}
