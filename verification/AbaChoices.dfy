// What the two thresholds choose: a single bit with n-f votes goes before Both.

module AbaChoices {
  import opened Options
  import opened Quorum
  import opened AbaNode
  import opened AbaLocal
  import opened AbaSystem
  import opened AbaProgress
  import C = CoinQueue

  // ----- on every board -----

  // Bit v is binary in round r and has a quorum of votes.
  predicate Strong(b: Board, votes: Tally, r: int, quorum: int, v: int) {
    v in {0, 1} && v in Values(b.binValues, r) && |Senders(votes, r, v)| >= quorum
  }

  // Votes for bit v, if it is binary.
  function Weight(b: Board, votes: Tally, r: int, v: int): nat {
    if v in Values(b.binValues, r) then |Senders(votes, r, v)| else 0
  }

  // Votes for 0, for 1 and for Both.
  function AllVotes(votes: Tally, r: int): nat {
    |Senders(votes, r, 0)| + |Senders(votes, r, 1)| + |Senders(votes, r, BOTH)|
  }

  lemma CountOne(t: Tally, r: int, v: int)
    ensures CountOver(t, r, [v]) == |Senders(t, r, v)|
  {
    assert [v][..0] == [];
  }

  lemma CountTwo(t: Tally, r: int, v: int, w: int)
    ensures CountOver(t, r, [v, w]) == |Senders(t, r, v)| + |Senders(t, r, w)|
  {
    assert [v, w][..1] == [v];
    CountOne(t, r, v);
  }

  // Over distinct bits the code's count is the votes for 0 and for 1.
  lemma CountBits(b: Board, votes: Tally, r: int)
    requires Distinct(Values(b.binValues, r)) && forall v :: v in Values(b.binValues, r) ==> v in {0, 1}
    ensures CountOver(votes, r, Values(b.binValues, r)) == Weight(b, votes, r, 0) + Weight(b, votes, r, 1)
  {
    hide Distinct;
    var vs := Values(b.binValues, r);
    forall k | 0 <= k < |vs| ensures vs[k] == 0 || vs[k] == 1 {
      assert vs[k] in vs;
    }
    if |vs| >= 3 {
      DistinctEntries(vs, 0, 1);
      DistinctEntries(vs, 0, 2);
      DistinctEntries(vs, 1, 2);
    } else if |vs| == 2 {
      DistinctEntries(vs, 0, 1);
      assert vs == [vs[0], vs[1]];
      CountTwo(votes, r, vs[0], vs[1]);
    } else if |vs| == 1 {
      assert vs == [vs[0]];
      CountOne(votes, r, vs[0]);
    }
  }

  // The CONF value is a bit exactly when some binary bit has a quorum of AUX votes,
  // and then one that has it; Both needs that none has, and a quorum in all.
  lemma AuxChoiceIff(b: Board, r: int, quorum: int)
    ensures var choice := AuxChoice(b, r, quorum);
      && (choice.Some? && choice.value != BOTH <==> exists v :: Strong(b, b.auxValues, r, quorum, v))
      && (choice.Some? && choice.value != BOTH ==> Strong(b, b.auxValues, r, quorum, choice.value))
      && (Strong(b, b.auxValues, r, quorum, 1) ==> choice == Some(1))
      && (choice == Some(BOTH) <==>
            && (forall v :: !Strong(b, b.auxValues, r, quorum, v))
            && CountOver(b.auxValues, r, Values(b.binValues, r)) >= quorum)
  {
    assert Strong(b, b.auxValues, r, quorum, 1) == Backed(b, b.auxValues, r, 1, quorum);
    assert Strong(b, b.auxValues, r, quorum, 0) == Backed(b, b.auxValues, r, 0, quorum);
  }

  // So does the value confThreshold returns, from CONF votes; Both counts CONF Both
  // too and needs two binary values.
  lemma ConfChoiceIff(b: Board, r: int, quorum: int)
    requires quorum > 0
    ensures var choice := ConfChoice(b, r, quorum);
      && (choice.Some? && choice.value != BOTH <==> exists v :: Strong(b, b.confValues, r, quorum, v))
      && (choice.Some? && choice.value != BOTH ==> Strong(b, b.confValues, r, quorum, choice.value))
      && (Strong(b, b.confValues, r, quorum, 1) ==> choice == Some(1))
      && (choice == Some(BOTH) <==>
            && (forall v :: !Strong(b, b.confValues, r, quorum, v))
            && |Values(b.binValues, r)| == 2
            && AllVotes(b.confValues, r) >= quorum)
  {
    CountThree(b.confValues, r);
    assert Strong(b, b.confValues, r, quorum, 1) == Backed(b, b.confValues, r, 1, quorum);
    assert Strong(b, b.confValues, r, quorum, 0) == Backed(b, b.confValues, r, 0, quorum);
  }

  // ----- over runs -----

  // The one CONF message of round r is for w.
  ghost predicate ConfSent(nd: Node, r: int, p: int, w: int) {
    nd.phase == WaitConf && forall v :: Conf(r, p, v) in nd.sent <==> v == w
  }

  // A correct peer that waits for AUX and is woken up sends CONF for a bit with n-f
  // votes if there is one, CONF Both if the votes for binary bits together are n-f,
  // and nothing otherwise.
  lemma AuxWake(c: Cfg, run: seq<Sys>, i: nat, p: int)
    requires ValidCfg(c) && IsRun(c, run) && i + 1 < |run| && Next(c, run[i], WakeUp(p), run[i + 1])
    requires p in Correct(c) && p in run[i] && p in run[i + 1] && run[i][p].phase == WaitAux
    ensures var nd, nd', r, q := run[i][p], run[i + 1][p], run[i][p].round, c.n - c.f;
      var b := nd.board;
      if exists v :: Strong(b, b.auxValues, r, q, v) then
        exists w :: Strong(b, b.auxValues, r, q, w) && ConfSent(nd', r, p, w)
      else if Weight(b, b.auxValues, r, 0) + Weight(b, b.auxValues, r, 1) >= q then ConfSent(nd', r, p, BOTH)
      else nd' == nd
  {
    hide ValidCfg, IsRun, Inv, AuxChoice, Strong, Weight;
    var nd, nd', r, q := run[i][p], run[i + 1][p], run[i][p].round, c.n - c.f;
    RunInv(c, run, i);
    RunInv(c, run, i + 1);
    AuxChoiceIff(nd.board, r, q);
    BinaryBits(c, run[i], r, p);
    CountBits(nd.board, nd.board.auxValues, r);
    if AuxChoice(nd.board, r, q).Some? {
      OneConf(c, run[i + 1], p, r, AuxChoice(nd.board, r, q).value);
    }
  }

  lemma OneConf(c: Cfg, s: Sys, p: int, r: int, w: int)
    requires Inv(c, s) && p in Correct(c) && Conf(r, p, w) in s[p].sent
    ensures forall v :: Conf(r, p, v) in s[p].sent <==> v == w
  {
    hide VotesInv, RoundsInv, Relayed, Received, EstsJustified;
    assert LocalInv(s[p], PeerOf(c, p));
    forall v | Conf(r, p, v) in s[p].sent ensures v == w {
      assert OwnMsg(Conf(r, p, v), s[p].hist, PeerOf(c, p)) && OwnMsg(Conf(r, p, w), s[p].hist, PeerOf(c, p));
    }
  }

  // The peer's value of round r is w, and its coin share is out.
  ghost predicate ValueTaken(c: Cfg, nd: Node, r: int, p: int, w: int) {
    nd.phase == WaitCoin && nd.values == w && Coin(r, p, c.hash(r)) in nd.sent
  }

  // One that waits for CONF takes a bit with n-f votes if there is one, Both if two
  // values are binary and all votes together are n-f, and nothing otherwise.
  lemma ConfWake(c: Cfg, run: seq<Sys>, i: nat, p: int)
    requires ValidCfg(c) && IsRun(c, run) && i + 1 < |run| && Next(c, run[i], WakeUp(p), run[i + 1])
    requires p in Correct(c) && p in run[i] && p in run[i + 1] && run[i][p].phase == WaitConf
    ensures var nd, nd', r, q := run[i][p], run[i + 1][p], run[i][p].round, c.n - c.f;
      var b := nd.board;
      if exists v :: Strong(b, b.confValues, r, q, v) then
        exists w :: Strong(b, b.confValues, r, q, w) && ValueTaken(c, nd', r, p, w)
      else if |Values(b.binValues, r)| == 2 && AllVotes(b.confValues, r) >= q then ValueTaken(c, nd', r, p, BOTH)
      else nd' == nd
  {
    hide ValidCfg, IsRun, Inv, ConfChoice, Strong;
    Thresholds(c);
    ConfChoiceIff(run[i][p].board, run[i][p].round, c.n - c.f);
  }

  lemma Thresholds(c: Cfg)
    requires ValidCfg(c)
    ensures c.n - c.f > 0
  {
  }

  // ----- the AUX message -----

  // At an earlier point the peer had all these binary values but the last.
  ghost predicate Before(run: seq<Sys>, i: nat, p: int, r: int, vs: seq<int>, t: nat) {
    t < i < |run| && p in run[t] && vs != [] && Values(run[t][p].board.binValues, r) == vs[..|vs| - 1]
  }

  lemma {:induction false} NewestBinary(c: Cfg, run: seq<Sys>, i: nat, p: int, r: int) returns (t: nat)
    requires IsRun(c, run) && i < |run| && p in Correct(c) && p in run[i]
    requires Values(run[i][p].board.binValues, r) != []
    ensures Before(run, i, p, r, Values(run[i][p].board.binValues, r), t)
    decreases i
  {
    hide Init, Next;
    if i == 0 {
      NoBinary(c, run[0], p, r);
    }
    assert Steps(c, run[i - 1], run[i]);
    var step :| Next(c, run[i - 1], step, run[i]);
    BinaryStep(c, run[i - 1], step, run[i], p, r);
    if Values(run[i][p].board.binValues, r) == Values(run[i - 1][p].board.binValues, r) {
      t := NewestBinary(c, run, i - 1, p, r);
    } else {
      t := i - 1;
    }
  }

  lemma NoBinary(c: Cfg, s: Sys, p: int, r: int)
    requires Init(c, s) && p in Correct(c)
    ensures p in s && Values(s[p].board.binValues, r) == []
  {
  }

  lemma BinaryStep(c: Cfg, s: Sys, step: Step, s': Sys, p: int, r: int)
    requires Next(c, s, step, s') && p in s'
    ensures p in s
    ensures var vs, vs' := Values(s[p].board.binValues, r), Values(s'[p].board.binValues, r);
      vs' == vs || (vs' != [] && vs == vs'[..|vs'| - 1])
  {
    hide AuxChoice, ConfChoice, C.Handle;
  }

  // A correct peer with binary values, when woken up, sends AUX for the one that came
  // last: at an earlier point it had exactly the others.
  lemma BinaryWake(c: Cfg, run: seq<Sys>, i: nat, p: int) returns (v: int, t: nat)
    requires ValidCfg(c) && IsRun(c, run) && i + 1 < |run| && Next(c, run[i], WakeUp(p), run[i + 1])
    requires p in Correct(c) && p in run[i] && p in run[i + 1] && run[i][p].phase == WaitBinary
    requires Values(run[i][p].board.binValues, run[i][p].round) != []
    ensures var nd, nd', r := run[i][p], run[i + 1][p], run[i][p].round;
      && t < i && p in run[t] && nd'.phase == WaitAux
      && (forall w :: Aux(r, p, w) in nd'.sent <==> w == v)
      && v in Values(nd.board.binValues, r) && v !in Values(run[t][p].board.binValues, r)
      && (forall w :: w in Values(nd.board.binValues, r) ==> w == v || w in Values(run[t][p].board.binValues, r))
  {
    hide ValidCfg, IsRun, Inv, Distinct;
    var nd, r := run[i][p], run[i][p].round;
    var vs := Values(nd.board.binValues, r);
    v := vs[|vs| - 1];
    t := NewestBinary(c, run, i, p, r);
    RunInv(c, run, i);
    RunInv(c, run, i + 1);
    BinaryBits(c, run[i], r, p);
    OneAux(c, run[i + 1], p, r, v);
    LastNew(vs);
  }

  lemma LastNew(vs: seq<int>)
    requires Distinct(vs) && vs != []
    ensures vs[|vs| - 1] !in vs[..|vs| - 1]
    ensures forall w :: w in vs ==> w == vs[|vs| - 1] || w in vs[..|vs| - 1]
  {
    assert vs == vs[..|vs| - 1] + [vs[|vs| - 1]];
  }

  lemma OneAux(c: Cfg, s: Sys, p: int, r: int, w: int)
    requires Inv(c, s) && p in Correct(c) && Aux(r, p, w) in s[p].sent
    ensures forall v :: Aux(r, p, v) in s[p].sent <==> v == w
  {
    hide VotesInv, RoundsInv, Relayed, Received, EstsJustified;
    assert LocalInv(s[p], PeerOf(c, p));
    forall v | Aux(r, p, v) in s[p].sent ensures v == w {
      assert OwnMsg(Aux(r, p, v), s[p].hist, PeerOf(c, p)) && OwnMsg(Aux(r, p, w), s[p].hist, PeerOf(c, p));
    }
  }
}
