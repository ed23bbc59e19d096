// The agreement object of src/consensus/aba.go, with the fields it updates in
// place. Every method takes exactly the step AbaNode describes.

module AbaInstance {
  import opened Options
  import opened AbaNode
  import C = CoinQueue

  // round -> value -> list of senders
  datatype Lists = Lists(rows: map<int, map<int, seq<int>>>)

  // A Go lookup: a missing entry reads as the empty list.
  function At(m: Lists, r: int, v: int): seq<int> {
    if r in m.rows && v in m.rows[r] then m.rows[r][v] else []
  }

  function Put(m: Lists, r: int, v: int, s: int): (m': Lists)
    ensures At(m', r, v) == At(m, r, v) + [s]
    ensures forall r', v' :: r' != r || v' != v ==> At(m', r', v') == At(m, r', v')
  {
    var row := if r in m.rows then m.rows[r] else map[];
    Lists(m.rows[r := row[v := At(m, r, v) + [s]]])
  }

  // round -> value -> true
  datatype Flags = Flags(rows: map<int, map<int, bool>>)

  predicate Flag(m: Flags, r: int, v: int) {
    r in m.rows && v in m.rows[r] && m.rows[r][v]
  }

  function Raise(m: Flags, r: int, v: int): (m': Flags)
    ensures forall r', v' :: Flag(m', r', v') <==> Flag(m, r', v') || (r' == r && v' == v)
  {
    var row := if r in m.rows then m.rows[r] else map[];
    Flags(m.rows[r := row[v := true]])
  }

  function Row(m: map<int, seq<int>>, r: int): seq<int> {
    if r in m then m[r] else []
  }

  // The lists and rows that votes accepted one after the other leave behind.
  function Table(t: Tally): Lists {
    match t
    case NoVotes => Lists(map[])
    case Cast(rest, r, v, s) => Put(Table(rest), r, v, s)
  }

  function Rows(b: Bins): map<int, seq<int>> {
    match b
    case NoBins => map[]
    case Add(rest, r, v) => Rows(rest)[r := Row(Rows(rest), r) + [v]]
  }

  // No vote was accepted twice.
  predicate Once(t: Tally) {
    match t
    case NoVotes => true
    case Cast(rest, r, v, s) => s !in Senders(rest, r, v) && Once(rest)
  }

  // A list holds the senders of its value, each once.
  lemma {:induction false} TableSenders(t: Tally, r: int, v: int)
    requires Once(t)
    ensures forall x :: x in At(Table(t), r, v) <==> x in Senders(t, r, v)
    ensures |At(Table(t), r, v)| == |Senders(t, r, v)|
  {
    match t
    case NoVotes =>
    case Cast(rest, r', v', s) =>
      TableSenders(rest, r, v);
      assert At(Table(t), r, v) == if r' == r && v' == v then At(Table(rest), r, v) + [s] else At(Table(rest), r, v);
  }

  lemma RowsAdd(b: Bins, r: int, v: int)
    ensures Rows(Add(b, r, v)) == Rows(b)[r := Row(Rows(b), r) + [v]]
  {
  }

  lemma TableCast(t: Tally, r: int, v: int, s: int)
    requires Once(t)
    ensures Table(Cast(t, r, v, s)) == Put(Table(t), r, v, s)
    ensures Once(Cast(t, r, v, s)) <==> s !in At(Table(t), r, v)
    ensures s in At(Table(t), r, v) <==> s in Senders(t, r, v)
    ensures var list := At(Table(t), r, v);
      |Senders(Cast(t, r, v, s), r, v)| == if s in list then |list| else |list| + 1
  {
    TableSenders(t, r, v);
    if s in Senders(t, r, v) {
      assert Senders(t, r, v) + {s} == Senders(t, r, v);
    }
  }

  lemma {:induction false} RowsValues(b: Bins, r: int)
    ensures Row(Rows(b), r) == Values(b, r)
  {
    match b
    case NoBins =>
    case Add(rest, r', v) =>
      RowsValues(rest, r);
      RowsValues(rest, r');
  }

  // The outbox lists the broadcast log, and the flags mark its EST messages.
  ghost predicate HoldsLog(estSent: Flags, outbox: seq<Msg>, id: int, sent: set<Msg>) {
    && (forall r, v :: Flag(estSent, r, v) <==> Est(r, id, v) in sent)
    && (forall m :: m in outbox <==> m in sent)
  }

  lemma FlagLog(estSent: Flags, outbox: seq<Msg>, id: int, sent: set<Msg>, r: int, v: int)
    requires HoldsLog(estSent, outbox, id, sent)
    ensures Flag(estSent, r, v) <==> Est(r, id, v) in sent
  {
  }

  lemma LogOther(estSent: Flags, outbox: seq<Msg>, id: int, sent: set<Msg>, m: Msg)
    requires HoldsLog(estSent, outbox, id, sent) && !m.Est?
    ensures HoldsLog(estSent, outbox + [m], id, sent + {m})
  {
  }

  lemma LogEst(estSent: Flags, estSent': Flags, outbox: seq<Msg>, id: int, sent: set<Msg>, r: int, v: int)
    requires HoldsLog(estSent, outbox, id, sent)
    requires forall r', v' :: Flag(estSent', r', v') <==> Flag(estSent, r', v') || (r' == r && v' == v)
    ensures HoldsLog(estSent', outbox + [Est(r, id, v)], id, sent + {Est(r, id, v)})
  {
  }

  // inSlice: linear search
  method InSlice(s: int, list: seq<int>) returns (found: bool)
    ensures found <==> s in list
  {
    for i := 0 to |list|
      invariant s !in list[..i]
    {
      if list[i] == s {
        return true;
      }
    }
    assert list[..|list|] == list;
    return false;
  }

  class Aba {
    const n: nat
    const f: nat
    const id: int
    const hash: int -> nat

    var round: int
    var est: int
    var alreadyDecide: Option<int>
    var binValues: map<int, seq<int>>
    var estValues: Lists
    var auxValues: Lists
    var confValues: Lists
    var estSent: Flags
    var coinShares: map<int, set<int>>
    var coinCh: seq<int>

    // where run is blocked, and its local variable values
    var phase: Phase
    var values: int
    // broadcast messages and outputs on the epoch's event channel
    var outbox: seq<Msg>
    var outputs: seq<int>

    ghost var node: Node

    ghost function Me(): Peer {
      Peer(n, f, id, hash)
    }

    // The object is in the abstract state node.
    ghost predicate Valid()
      reads this
    {
      && node.phase == phase && node.round == round && node.est == est && node.values == values
      && node.decided == alreadyDecide
      && estValues == Table(node.board.estValues) && Once(node.board.estValues)
      && auxValues == Table(node.board.auxValues) && Once(node.board.auxValues)
      && confValues == Table(node.board.confValues) && Once(node.board.confValues)
      && binValues == Rows(node.board.binValues)
      && HoldsLog(estSent, outbox, id, node.sent)
      && node.coin.shares == coinShares && node.coin.queue == coinCh
      && outputs == node.hist.outs
    }

    // MakeABA
    constructor (n: nat, f: nat, id: int, hash: int -> nat)
      ensures Valid() && node == FRESH
      ensures this.n == n && this.f == f && this.id == id && this.hash == hash
    {
      this.n, this.f, this.id, this.hash := n, f, id, hash;
      round, est, alreadyDecide, phase, values := 0, 0, None, WaitInput, 0;
      binValues, estSent, coinShares := map[], Flags(map[]), map[];
      estValues, auxValues, confValues := Lists(map[]), Lists(map[]), Lists(map[]);
      coinCh, outbox, outputs := [], [], [];
      node := FRESH;
    }

    method SendEST(r: int, v: int, ghost sent: set<Msg>)
      requires HoldsLog(estSent, outbox, id, sent)
      modifies this`estSent, this`outbox
      ensures HoldsLog(estSent, outbox, id, sent + {Est(r, id, v)})
    {
      LogEst(estSent, Raise(estSent, r, v), outbox, id, sent, r, v);
      estSent := Raise(estSent, r, v);
      outbox := outbox + [Est(r, id, v)];
    }

    method HandleEST(r: int, s: int, v: int)
      requires Valid()
      modifies this
      ensures Valid() && node == HandleEst(old(node), Me(), r, s, v)
    {
      hide Table, Rows, Once, Put, At, Senders, HoldsLog, Flag, HandleEst;
      TableCast(node.board.estValues, r, v, s);
      var dup := InSlice(s, At(estValues, r, v));
      if dup {
        HandleEstAgain(node, Me(), r, s, v);
        return;
      }
      ghost var before := node;
      HandleEstFields(before, Me(), r, s, v);
      estValues := Put(estValues, r, v, s);
      var estCount := |At(estValues, r, v)|;
      var sent := Flag(estSent, r, v);
      FlagLog(estSent, outbox, id, node.sent, r, v);
      if estCount == f + 1 && !sent {
        SendEST(r, v, node.sent);
      }
      if estCount == 2 * f + 1 {
        RowsAdd(node.board.binValues, r, v);
        binValues := binValues[r := Row(binValues, r) + [v]];
      }
      node := HandleEst(before, Me(), r, s, v);
    }

    method HandleAUX(r: int, s: int, v: int)
      requires Valid()
      modifies this
      ensures Valid() && node == HandleAux(old(node), r, s, v)
    {
      hide Table, Rows, Once, Put, Raise, Senders, Values, HoldsLog;
      TableCast(node.board.auxValues, r, v, s);
      var dup := InSlice(s, At(auxValues, r, v));
      if dup {
        return;
      }
      auxValues := Put(auxValues, r, v, s);
      node := HandleAux(node, r, s, v);
    }

    method HandleCONF(r: int, s: int, v: int)
      requires Valid()
      modifies this
      ensures Valid() && node == HandleConf(old(node), r, s, v)
    {
      hide Table, Rows, Once, Put, Raise, Senders, Values, HoldsLog;
      TableCast(node.board.confValues, r, v, s);
      var dup := InSlice(s, At(confValues, r, v));
      if dup {
        return;
      }
      confValues := Put(confValues, r, v, s);
      node := HandleConf(node, r, s, v);
    }

    // ok is the verdict of VerifySignature.
    method HandleCOIN(r: int, s: int, head: nat, ok: bool)
      requires Valid()
      modifies this
      ensures Valid() && node == HandleCoin(old(node), Me(), C.Share(r, s, head), ok)
    {
      hide Table, Rows, Once, HoldsLog, HandleCoin;
      HandleCoinFields(node, Me(), C.Share(r, s, head), ok);
      ghost var before := node;
      node := HandleCoin(before, Me(), C.Share(r, s, head), ok);
      if !ok {
        return;
      }
      var shares := if r in coinShares then coinShares[r] else {};
      if |shares| > f + 1 {
        return;
      }
      if s in shares {
        return;
      }
      coinShares := coinShares[r := shares + {s}];
      if |shares + {s}| == f + 1 {
        coinCh := coinCh + [head % 2];
      }
    }

    // run: the input arrives
    method TakeInput(v: int)
      requires Valid() && phase == WaitInput
      modifies this
      ensures Valid() && node == Input(old(node), Me(), v)
    {
      hide Table, Rows, Once, Put, Raise, Senders, Values, HoldsLog;
      ghost var before := node;
      est := v;
      var ok := Flag(estSent, round, est);
      FlagLog(estSent, outbox, id, node.sent, round, est);
      if !ok {
        SendEST(round, est, node.sent);
      }
      if ok {
        assert before.sent + {Est(round, id, v)} == before.sent;
      }
      phase := WaitBinary;
      node := Input(before, Me(), v);
    }

    // run: an event while waiting for binary values
    method WakeBinary()
      requires Valid() && phase == WaitBinary
      modifies this
      ensures Valid() && node == Wake(old(node), Me())
    {
      hide Table, Rows, Once, Put, Raise, Senders, Values, HoldsLog;
      var vs := Row(binValues, round);
      RowsValues(node.board.binValues, round);
      if |vs| != 0 {
        var b := vs[|vs| - 1];
        LogOther(estSent, outbox, id, node.sent, Aux(round, id, b));
        outbox := outbox + [Aux(round, id, b)];
        phase := WaitAux;
      }
      node := Wake(node, Me());
    }

    method SendConf(r: int, v: int)
      modifies this`outbox
      ensures outbox == old(outbox) + [Conf(r, id, v)]
    {
      outbox := outbox + [Conf(r, id, v)];
    }

    method AuxThreshold(r: int) returns (ok: bool)
      requires Valid()
      modifies this`outbox
      ensures var choice := AuxChoice(node.board, r, n - f);
        && ok == choice.Some?
        && outbox == if ok then old(outbox) + [Conf(r, id, choice.value)] else old(outbox)
    {
      RowsValues(node.board.binValues, r);
      TableSenders(node.board.auxValues, r, 0);
      TableSenders(node.board.auxValues, r, 1);
      var has1 := InSlice(1, Row(binValues, r));
      if has1 && |At(auxValues, r, 1)| >= n - f {
        SendConf(r, 1);
        return true;
      }
      var has0 := InSlice(0, Row(binValues, r));
      if has0 && |At(auxValues, r, 0)| >= n - f {
        SendConf(r, 0);
        return true;
      }
      var count := 0;
      var vs := Row(binValues, r);
      for i := 0 to |vs|
        invariant count == CountOver(node.board.auxValues, r, vs[..i])
        invariant outbox == old(outbox)
      {
        assert vs[..i + 1][..i] == vs[..i];
        TableSenders(node.board.auxValues, r, vs[i]);
        count := count + |At(auxValues, r, vs[i])|;
      }
      assert vs[..|vs|] == vs;
      if count >= n - f {
        SendConf(r, BOTH);
        return true;
      }
      return false;
    }

    // run: an event while waiting for AUX messages
    method WakeAux()
      requires Valid() && phase == WaitAux
      modifies this
      ensures Valid() && node == Wake(old(node), Me())
    {
      hide Table, Rows, Once, HoldsLog, Wake, AuxChoice;
      AuxThresholdFields(node, Me());
      var ok := AuxThreshold(round);
      if ok {
        LogOther(estSent, old(outbox), id, node.sent, outbox[|outbox| - 1]);
        phase := WaitConf;
      }
      node := Wake(node, Me());
    }

    method SendCoinShare(r: int)
      modifies this`outbox
      ensures outbox == old(outbox) + [Coin(r, id, hash(r))]
    {
      outbox := outbox + [Coin(r, id, hash(r))];
    }

    method ConfThreshold(r: int) returns (value: int, ok: bool)
      requires Valid()
      modifies this`outbox
      ensures var choice := ConfChoice(node.board, r, n - f);
        && ok == choice.Some?
        && value == (if ok then choice.value else -1)
        && outbox == if ok then old(outbox) + [Coin(r, id, hash(r))] else old(outbox)
    {
      RowsValues(node.board.binValues, r);
      TableSenders(node.board.confValues, r, 0);
      TableSenders(node.board.confValues, r, 1);
      var has1 := InSlice(1, Row(binValues, r));
      if has1 && |At(confValues, r, 1)| >= n - f {
        SendCoinShare(r);
        return 1, true;
      }
      var has0 := InSlice(0, Row(binValues, r));
      if has0 && |At(confValues, r, 0)| >= n - f {
        SendCoinShare(r);
        return 0, true;
      }
      var count := 0;
      if |Row(binValues, r)| == 2 {
        TableSenders(node.board.confValues, r, BOTH);
        count := count + |At(confValues, r, BOTH)|;
        count := count + |At(confValues, r, 0)|;
        count := count + |At(confValues, r, 1)|;
        CountThree(node.board.confValues, r);
      }
      if count >= n - f {
        SendCoinShare(r);
        return BOTH, true;
      }
      return -1, false;
    }

    // run: an event while waiting for CONF messages
    method WakeConf()
      requires Valid() && phase == WaitConf
      modifies this
      ensures Valid() && node == Wake(old(node), Me())
    {
      hide Table, Rows, Once, HoldsLog, Wake, ConfChoice;
      ConfThresholdFields(node, Me());
      var v, ok := ConfThreshold(round);
      if ok {
        LogOther(estSent, old(outbox), id, node.sent, outbox[|outbox| - 1]);
        values := v;
        phase := WaitCoin;
      }
      node := Wake(node, Me());
    }

    method SetNewEst(values: int, coin: int) returns (stop: bool)
      modifies this`alreadyDecide, this`outputs, this`est
      ensures est == NextEst(values, coin)
      ensures var hit := values != BOTH && values == coin;
        && alreadyDecide == (if hit && old(alreadyDecide).None? then Some(values) else old(alreadyDecide))
        && outputs == (if hit && old(alreadyDecide).None? then old(outputs) + [values] else old(outputs))
        && stop == (hit && old(alreadyDecide) == Some(values))
    {
      stop := false;
      if values != BOTH {
        if values == coin {
          if alreadyDecide == None {
            alreadyDecide := Some(values);
            outputs := outputs + [values];
          } else if alreadyDecide.value == values {
            stop := true;
          }
        }
        est := values;
      } else {
        est := coin;
      }
    }

    // run: the end of an iteration that does not stop
    method EnterRound()
      requires HoldsLog(estSent, outbox, id, node.sent)
      modifies this`round, this`phase, this`estSent, this`outbox
      ensures round == old(round) + 1 && phase == WaitBinary
      ensures HoldsLog(estSent, outbox, id, node.sent + {Est(round, id, est)})
    {
      round := round + 1;
      SendEST(round, est, node.sent);
      phase := WaitBinary;
    }

    // run: a coin is received
    method WakeCoin()
      requires Valid() && phase == WaitCoin
      modifies this
      ensures Valid() && node == Wake(old(node), Me())
    {
      hide Table, Rows, Once, HoldsLog, Wake;
      ghost var before := node;
      WakeIdle(before, Me());
      if coinCh != [] {
        TakeCoinFields(before, Me());
        var coin := coinCh[0];
        coinCh := coinCh[1..];
        var stop := SetNewEst(values, coin);
        if stop {
          phase := Stopped;
        } else {
          EnterRound();
        }
      }
      node := Wake(before, Me());
    }
  }

  // What counting a new EST changes, field by field.
  lemma HandleEstFields(nd: Node, me: Peer, r: int, s: int, v: int)
    requires s !in Senders(nd.board.estValues, r, v)
    ensures
      var nd' := HandleEst(nd, me, r, s, v);
      var count := |Senders(Cast(nd.board.estValues, r, v, s), r, v)|;
      && nd' == nd.(board := nd'.board, sent := nd'.sent)
      && nd'.board.estValues == Cast(nd.board.estValues, r, v, s)
      && nd'.board.auxValues == nd.board.auxValues && nd'.board.confValues == nd.board.confValues
      && nd'.board.binValues == (if count == 2 * me.f + 1 then Add(nd.board.binValues, r, v) else nd.board.binValues)
      && nd'.sent == (if count == me.f + 1 && Est(r, me.id, v) !in nd.sent
                      then nd.sent + {Est(r, me.id, v)} else nd.sent)
  {
  }

  lemma HandleEstAgain(nd: Node, me: Peer, r: int, s: int, v: int)
    requires s in Senders(nd.board.estValues, r, v)
    ensures HandleEst(nd, me, r, s, v) == nd
  {
  }

  lemma WakeIdle(nd: Node, me: Peer)
    requires nd.phase == WaitCoin
    ensures nd.coin.queue == [] ==> Wake(nd, me) == nd
  {
  }

  // What a threshold that is met changes, field by field.
  lemma AuxThresholdFields(nd: Node, me: Peer)
    requires nd.phase == WaitAux
    ensures var choice := AuxChoice(nd.board, nd.round, me.n - me.f);
      if choice.None? then Wake(nd, me) == nd
      else
        var nd' := Wake(nd, me);
        nd' == nd.(phase := WaitConf, sent := nd'.sent, hist := nd'.hist)
        && nd'.sent == nd.sent + {Conf(nd.round, me.id, choice.value)} && nd'.hist.outs == nd.hist.outs
  {
    hide AuxChoice;
  }

  lemma ConfThresholdFields(nd: Node, me: Peer)
    requires nd.phase == WaitConf
    ensures var choice := ConfChoice(nd.board, nd.round, me.n - me.f);
      if choice.None? then Wake(nd, me) == nd
      else
        var nd' := Wake(nd, me);
        nd' == nd.(phase := WaitCoin, values := choice.value, sent := nd'.sent, hist := nd'.hist)
        && nd'.sent == nd.sent + {Coin(nd.round, me.id, me.hash(nd.round))} && nd'.hist.outs == nd.hist.outs
  {
    hide ConfChoice;
  }

  // What an accepted share changes, field by field.
  lemma HandleCoinFields(nd: Node, me: Peer, m: C.Share, ok: bool)
    ensures
      var nd' := HandleCoin(nd, me, m, ok);
      var shares := if m.round in nd.coin.shares then nd.coin.shares[m.round] else {};
      var kept := ok && |shares| <= me.f + 1 && m.sender !in shares;
      && nd' == nd.(coin := nd'.coin)
      && nd'.coin.shares == (if kept then nd.coin.shares[m.round := shares + {m.sender}] else nd.coin.shares)
      && nd'.coin.queue == (if kept && |shares + {m.sender}| == me.f + 1
                            then nd.coin.queue + [m.head % 2] else nd.coin.queue)
  {
  }

  // What receiving a coin changes, field by field.
  lemma TakeCoinFields(nd: Node, me: Peer)
    requires nd.phase == WaitCoin && nd.coin.queue != []
    ensures
      var nd', coin := Wake(nd, me), nd.coin.queue[0];
      var hit := nd.values != BOTH && nd.values == coin;
      var stop := hit && nd.decided == Some(nd.values);
      && nd'.board == nd.board && nd'.values == nd.values
      && nd'.coin.shares == nd.coin.shares && nd'.coin.queue == nd.coin.queue[1..]
      && nd'.est == NextEst(nd.values, coin)
      && nd'.decided == (if hit && nd.decided.None? then Some(nd.values) else nd.decided)
      && nd'.hist.outs == (if hit && nd.decided.None? then nd.hist.outs + [nd.values] else nd.hist.outs)
      && nd'.phase == (if stop then Stopped else WaitBinary)
      && nd'.round == (if stop then nd.round else nd.round + 1)
      && nd'.sent == (if stop then nd.sent else nd.sent + {Est(nd.round + 1, me.id, nd'.est)})
  {
  }

}
