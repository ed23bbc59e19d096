// One lottery of src/consensus/lottery.go: it elects a producer exactly once.

module LotteryInstance {
  import opened EpochNode
  import opened Certificates

  // A share reaching the lottery, with the verdict of VerifySignature.
  datatype Arrival = Arrival(sender: int, ok: bool)

  // Lottery j after all arrivals.
  function Collected(j: int, ms: seq<Arrival>): Shares {
    if ms == [] then NoShares
    else
      var m := ms[|ms| - 1];
      HandleLottery(Collected(j, ms[..|ms| - 1]), j, m.sender, m.ok)
  }

  // How often it fired.
  function Firings(f: nat, j: int, ms: seq<Arrival>): nat {
    if ms == [] then 0
    else
      var init, m := ms[..|ms| - 1], ms[|ms| - 1];
      Firings(f, j, init) + if Fires(Collected(j, init), f, j, m.sender, m.ok) then 1 else 0
  }

  // The peers of which some share verified.
  function Valid(ms: seq<Arrival>): set<int> {
    set m | m in ms && m.ok :: m.sender
  }

  lemma {:induction false} CollectedValid(j: int, ms: seq<Arrival>)
    ensures ShareSenders(Collected(j, ms), j) == Valid(ms)
  {
    if ms != [] {
      var init, m := ms[..|ms| - 1], ms[|ms| - 1];
      assert ms == init + [m];
      CollectedValid(j, init);
      assert Valid(ms) == if m.ok then Valid(init) + {m.sender} else Valid(init);
    }
  }

  // However the shares are ordered and repeated, the lottery fires once if f+1
  // peers sent a valid share, and not at all otherwise.
  lemma {:induction false} FiresOnce(f: nat, j: int, ms: seq<Arrival>)
    ensures Firings(f, j, ms) == if |Valid(ms)| >= f + 1 then 1 else 0
  {
    if ms != [] {
      var init, m := ms[..|ms| - 1], ms[|ms| - 1];
      FiresOnce(f, j, init);
      CollectedValid(j, init);
      CollectedValid(j, ms);
      var seen := ShareSenders(Collected(j, init), j);
      if m.ok && m.sender !in seen {
        assert |seen + {m.sender}| == |seen| + 1;
      }
    }
  }

  class Lottery {
    const n: nat
    const f: nat
    const fromLotteryTimes: int

    var coinShares: map<int, Sig>
    // producers put on the epoch's event channel
    var outputs: seq<int>

    ghost var accepted: Shares

    ghost predicate Valid()
      reads this
    {
      coinShares.Keys == ShareSenders(accepted, fromLotteryTimes)
    }

    // MakeLottery
    constructor (n: nat, f: nat, fromLotteryTimes: int)
      ensures Valid() && accepted == NoShares && outputs == []
      ensures this.n == n && this.f == f && this.fromLotteryTimes == fromLotteryTimes
    {
      this.n, this.f, this.fromLotteryTimes := n, f, fromLotteryTimes;
      coinShares, outputs, accepted := map[], [], NoShares;
    }

    // head is the first byte of the share's hash.
    method HandleLottery(times: int, sender: int, hash: Hash, head: nat, signature: Sig)
      requires Valid() && n > 0
      modifies this
      ensures Valid()
      ensures times != fromLotteryTimes ==>
        accepted == old(accepted) && outputs == old(outputs) && coinShares == old(coinShares)
      ensures times == fromLotteryTimes ==>
        var ok := Verify(hash, signature, sender);
        && accepted == EpochNode.HandleLottery(old(accepted), times, sender, ok)
        && outputs == old(outputs) + if Fires(old(accepted), f, times, sender, ok) then [head % n] else []
    {
      if times != fromLotteryTimes {
        return;
      }
      if sender in coinShares {
        return;
      }
      if !Verify(hash, signature, sender) {
        return;
      }
      coinShares := coinShares[sender := signature];
      accepted := EpochNode.HandleLottery(accepted, times, sender, true);
      assert |coinShares| == |coinShares.Keys|;
      if |coinShares| == f + 1 {
        outputs := outputs + [head % n];
      }
    }
  }
}
