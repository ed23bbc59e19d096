// The common coin of src/consensus/aba.go: shares are collected per round, and
// the f+1st share of a round pushes that round's bit, WITHOUT its round, on the
// channel coinCh from which the agreement loop takes one bit per round.

module CoinQueue {
  import opened Quorum

  // A COIN message: head is the first byte of HashMsg.
  datatype Share = Share(round: int, sender: int, head: nat)

  // shares and queue are the fields coinShares and coinCh. The other three are
  // history: the bits already taken, the rounds whose bit was pushed (in push
  // order), and per sender how many of its rounds have arrived.
  datatype Box = Box(shares: map<int, set<int>>, queue: seq<int>,
                     taken: seq<int>, order: seq<int>, heard: map<int, int>)

  const EMPTY := Box(map[], [], [], [], map[])

  function SharesOf(b: Box, r: int): set<int> {
    if r in b.shares then b.shares[r] else {}
  }

  function Heard(b: Box, sender: int): int {
    if sender in b.heard then b.heard[sender] else 0
  }

  function Note(b: Box, m: Share): Box {
    if m.round == Heard(b, m.sender) then b.(heard := b.heard[m.sender := m.round + 1]) else b
  }

  // handleCOIN; ok is the verdict of VerifySignature on the share.
  function Handle(b: Box, f: nat, m: Share, ok: bool): Box {
    var seen := SharesOf(b, m.round);
    if !ok then b
    else if |seen| > f + 1 || m.sender in seen then Note(b, m)
    else
      var b1 := Note(b, m).(shares := b.shares[m.round := seen + {m.sender}]);
      if |seen + {m.sender}| == f + 1
      then b1.(queue := b1.queue + [m.head % 2], order := b1.order + [m.round])
      else b1
  }

  // The loop receives one bit from the channel.
  function Take(b: Box): Box
    requires b.queue != []
  {
    b.(queue := b.queue[1..], taken := b.taken + [b.queue[0]])
  }

  // Completes(b, f, m): handling m pushes a bit.
  predicate Completes(b: Box, f: nat, m: Share) {
    |SharesOf(b, m.round)| == f && m.sender !in SharesOf(b, m.round)
  }

  // Per-link order: the share repeats a round of its sender or is the next one.
  predicate InOrder(b: Box, m: Share) {
    0 <= m.round <= Heard(b, m.sender)
  }

  // The i-th bit ever pushed is round i's coin.
  ghost predicate InSync(b: Box, hash: int -> nat) {
    && (forall i :: 0 <= i < |b.order| ==> b.order[i] == i)
    && |b.order| == |b.taken| + |b.queue|
    && (forall i :: 0 <= i < |b.taken| ==> b.taken[i] == hash(i) % 2)
    && (forall i :: 0 <= i < |b.queue| ==> b.queue[i] == hash(|b.taken| + i) % 2)
  }

  // Whatever arrives, what is pushed and taken are bits.
  ghost predicate Bits(b: Box) {
    && (forall i :: 0 <= i < |b.taken| ==> b.taken[i] in {0, 1})
    && (forall i :: 0 <= i < |b.queue| ==> b.queue[i] in {0, 1})
  }

  lemma HandleKeepsBits(b: Box, f: nat, m: Share, ok: bool)
    requires Bits(b)
    ensures Bits(Handle(b, f, m, ok)) && Handle(b, f, m, ok).taken == b.taken
  {
  }

  // The shares kept account for every arrival: a share is dropped only from a
  // round that is complete already.
  ghost predicate Accounted(b: Box, f: nat) {
    && (forall s, r {:trigger s in SharesOf(b, r)} :: s in SharesOf(b, r) ==> 0 <= r < Heard(b, s))
    && (forall s, r :: 0 <= r < Heard(b, s) ==> s in SharesOf(b, r) || |SharesOf(b, r)| > f + 1)
  }

  ghost predicate Complete(b: Box, f: nat, r: int) {
    |SharesOf(b, r)| >= f + 1
  }

  ghost predicate Inv(b: Box, f: nat, hash: int -> nat) {
    && InSync(b, hash)
    && Accounted(b, f)
    && (forall r :: Complete(b, f, r) <==> 0 <= r < |b.order|)
  }

  lemma EmptyInv(f: nat, hash: int -> nat)
    ensures Inv(EMPTY, f, hash)
  {
  }

  // A round completes only when it is the next one due, and with its own bit.
  predicate Due(b: Box, f: nat, hash: int -> nat, m: Share) {
    Completes(b, f, m) ==> m.round == |b.order| && m.head % 2 == hash(m.round) % 2
  }

  lemma TakeKeepsSync(b: Box, hash: int -> nat)
    requires InSync(b, hash) && b.queue != []
    ensures InSync(Take(b), hash)
    ensures Take(b).taken == b.taken + [hash(|b.taken|) % 2]
  {
  }

  lemma TakeKeepsInv(b: Box, f: nat, hash: int -> nat)
    requires Inv(b, f, hash) && b.queue != []
    ensures Inv(Take(b), f, hash)
  {
    TakeKeepsSync(b, hash);
    forall r ensures SharesOf(Take(b), r) == SharesOf(b, r) && Complete(Take(b), f, r) == Complete(b, f, r) {}
    forall s ensures Heard(Take(b), s) == Heard(b, s) {}
  }

  // A round can only complete after every lower round has: its f+1 senders were
  // all heard in the lower round too.
  lemma CompletesNext(b: Box, f: nat, hash: int -> nat, m: Share)
    requires Inv(b, f, hash) && InOrder(b, m) && m.head == hash(m.round)
    ensures Due(b, f, hash, m)
  {
    var k := |b.order|;
    assert Completes(b, f, m) ==> !Complete(b, f, m.round);
    if Completes(b, f, m) && m.round > k {
      var here := SharesOf(b, m.round) + {m.sender};
      assert !Complete(b, f, k);
      forall s | s in here ensures s in SharesOf(b, k) {
        assert Heard(b, s) > k;
      }
      assert here <= SharesOf(b, k);
      SubsetCount(here, SharesOf(b, k));
      assert false;
    }
  }

  // What handling an accepted share changes, field by field.
  lemma HandleShape(b: Box, f: nat, m: Share)
    ensures var b' := Handle(b, f, m, true);
      && b'.taken == b.taken
      && (forall s :: Heard(b', s) == if s == m.sender && m.round == Heard(b, s) then m.round + 1 else Heard(b, s))
      && (forall r :: r != m.round ==> SharesOf(b', r) == SharesOf(b, r))
      && SharesOf(b', m.round) == (if |SharesOf(b, m.round)| > f + 1 then SharesOf(b, m.round)
                                   else SharesOf(b, m.round) + {m.sender})
      && b'.queue == (if Completes(b, f, m) then b.queue + [m.head % 2] else b.queue)
      && b'.order == (if Completes(b, f, m) then b.order + [m.round] else b.order)
  {
    var seen := SharesOf(b, m.round);
    if m.sender in seen {
      assert seen + {m.sender} == seen;
    } else {
      assert |seen + {m.sender}| == |seen| + 1;
    }
  }

  lemma HandleAccounted(b: Box, f: nat, m: Share)
    requires Accounted(b, f) && InOrder(b, m)
    ensures Accounted(Handle(b, f, m, true), f)
  {
    HandleShape(b, f, m);
    var b' := Handle(b, f, m, true);
    forall s, r | 0 <= r < Heard(b', s)
      ensures s in SharesOf(b', r) || |SharesOf(b', r)| > f + 1
    {
      if r < Heard(b, s) {
        assert s in SharesOf(b, r) || |SharesOf(b, r)| > f + 1;
        SubsetCount(SharesOf(b, r), SharesOf(b', r));
      }
    }
  }

  lemma HandleComplete(b: Box, f: nat, m: Share, r: int)
    ensures Complete(Handle(b, f, m, true), f, r) <==> Complete(b, f, r) || (r == m.round && Completes(b, f, m))
  {
    HandleShape(b, f, m);
    if r == m.round && m.sender !in SharesOf(b, r) {
      assert |SharesOf(b, r) + {m.sender}| == |SharesOf(b, r)| + 1;
    } else if r == m.round {
      assert SharesOf(b, r) + {m.sender} == SharesOf(b, r);
    }
  }

  lemma HandleKeepsInv(b: Box, f: nat, hash: int -> nat, m: Share, ok: bool)
    requires Inv(b, f, hash)
    requires ok ==> InOrder(b, m) && m.head == hash(m.round)
    ensures Inv(Handle(b, f, m, ok), f, hash)
    ensures Handle(b, f, m, ok).taken == b.taken
  {
    hide Handle, InSync, Accounted, Complete, SharesOf;
    if ok {
      HandleAccounted(b, f, m);
      HandleShape(b, f, m);
      CompletesNext(b, f, hash, m);
      HandleKeepsSync(b, f, hash, m, true);
      forall r { HandleComplete(b, f, m, r); }
    } else {
      Ignored(b, f, m);
    }
  }

  lemma Ignored(b: Box, f: nat, m: Share)
    ensures Handle(b, f, m, false) == b
  {
  }

  lemma HandleKeepsSync(b: Box, f: nat, hash: int -> nat, m: Share, ok: bool)
    requires InSync(b, hash)
    requires ok ==> Due(b, f, hash, m)
    ensures InSync(Handle(b, f, m, ok), hash)
    ensures Handle(b, f, m, ok).taken == b.taken
  {
    if ok {
      SyncStepIff(b, f, hash, m);
      HandleShape(b, f, m);
    }
  }

  // One accepted arrival keeps queue positions and rounds matched exactly when it
  // completes no round, or the next one due with that round's bit.
  lemma SyncStepIff(b: Box, f: nat, hash: int -> nat, m: Share)
    requires InSync(b, hash)
    ensures InSync(Handle(b, f, m, true), hash) <==> Due(b, f, hash, m)
  {
    hide Handle, Completes;
    HandleShape(b, f, m);
    if Completes(b, f, m) {
      var b' := Handle(b, f, m, true);
      assert b'.order[|b.order|] == m.round && b'.queue[|b.queue|] == m.head % 2;
    }
  }

  // ----- runs of arrivals and takes -----

  // An accepted share arrives, or the loop tries to receive a bit.
  datatype Act = Arrive(m: Share) | Receive

  // The receive blocks while the channel is empty.
  function Do(b: Box, f: nat, act: Act): Box {
    match act
    case Arrive(m) => Handle(b, f, m, true)
    case Receive => if b.queue == [] then b else Take(b)
  }

  function DoAll(f: nat, acts: seq<Act>): Box {
    if acts == [] then EMPTY else Do(DoAll(f, acts[..|acts| - 1]), f, acts[|acts| - 1])
  }

  // Every sender's shares reach the node in round order with none skipped
  // (repetitions allowed), and carry the hash of their round.
  ghost predicate OrderedRun(f: nat, hash: int -> nat, acts: seq<Act>) {
    forall i {:trigger acts[i]} :: 0 <= i < |acts| && acts[i].Arrive? ==>
      InOrder(DoAll(f, acts[..i]), acts[i].m) && acts[i].m.head == hash(acts[i].m.round)
  }

  // Then each complete round has emitted exactly one bit, in round order, and the
  // bit taken in round r is round r's coin, for every r.
  lemma {:induction false} OrderedRunInSync(f: nat, hash: int -> nat, acts: seq<Act>)
    requires OrderedRun(f, hash, acts)
    ensures var b := DoAll(f, acts);
      && Inv(b, f, hash)
      && |b.order| == |b.taken| + |b.queue|
      && (forall r :: 0 <= r < |b.order| ==> b.order[r] == r)
      && (forall r :: Complete(b, f, r) <==> 0 <= r < |b.order|)
      && (forall r :: 0 <= r < |b.taken| ==> b.taken[r] == hash(r) % 2)
  {
    hide Do, Accounted;
    EmptyInv(f, hash);
    if acts != [] {
      var init := acts[..|acts| - 1];
      forall i | 0 <= i < |init| ensures init[i] == acts[i] && init[..i] == acts[..i] {}
      OrderedRunInSync(f, hash, init);
      DoKeepsInv(DoAll(f, init), f, hash, acts[|acts| - 1]);
    }
  }

  lemma DoKeepsInv(b: Box, f: nat, hash: int -> nat, act: Act)
    requires Inv(b, f, hash) && (act.Arrive? ==> InOrder(b, act.m) && act.m.head == hash(act.m.round))
    ensures Inv(Do(b, f, act), f, hash)
  {
    match act
    case Arrive(m) => HandleKeepsInv(b, f, hash, m, true);
    case Receive => if b.queue != [] { TakeKeepsInv(b, f, hash); }
  }

  lemma DoFour(f: nat, acts: seq<Act>)
    requires |acts| == 4
    ensures DoAll(f, acts) == Do(Do(Do(Do(EMPTY, f, acts[0]), f, acts[1]), f, acts[2]), f, acts[3])
  {
    hide Do;
    assert acts[..3][..2] == acts[..2] && acts[..2][..1] == acts[..1] && acts[..1][..0] == [];
    assert DoAll(f, acts[..1]) == Do(EMPTY, f, acts[0]);
    assert DoAll(f, acts[..2]) == Do(DoAll(f, acts[..1]), f, acts[1]);
    assert DoAll(f, acts[..3]) == Do(DoAll(f, acts[..2]), f, acts[2]);
  }

  // Without the order assumption the labels do slip. With f = 1, peer 1 sends
  // rounds 0 and 1 and peer 2 skips round 0: the bit taken in round 0 is round 1's.
  lemma SkippedRoundSlips()
    ensures exists acts: seq<Act>, hash: int -> nat ::
      && |acts| == 4
      && (forall i :: 0 <= i < |acts| && acts[i].Arrive? ==> acts[i].m.head == hash(acts[i].m.round))
      && DoAll(1, acts).order == [1]
      && DoAll(1, acts).taken == [hash(1) % 2]
      && hash(1) % 2 != hash(0) % 2
  {
    hide Handle, DoAll;
    var hash: int -> nat := r => if r == 1 then 1 else 0;
    var acts := [Arrive(Share(0, 1, 0)), Arrive(Share(1, 1, 1)), Arrive(Share(1, 2, 1)), Receive];
    DoFour(1, acts);
    SlippedBox(Share(0, 1, 0), Share(1, 1, 1), Share(1, 2, 1));
    assert forall i :: 0 <= i < |acts| && acts[i].Arrive? ==> acts[i].m.head == hash(acts[i].m.round);
  }

  lemma SlippedBox(m0: Share, m1: Share, m2: Share)
    requires m0.round == 0 && m1.round == m2.round == 1 && m1.head == m2.head == 1 && m1.sender != m2.sender
    ensures var b := Handle(Handle(Handle(EMPTY, 1, m0, true), 1, m1, true), 1, m2, true);
      b.order == [1] && b.queue == [1] && b.taken == []
  {
    hide Handle;
    var b1 := Handle(EMPTY, 1, m0, true);
    HandleShape(EMPTY, 1, m0);
    var b2 := Handle(b1, 1, m1, true);
    HandleShape(b1, 1, m1);
    HandleShape(b2, 1, m2);
    assert |SharesOf(b1, 1)| == 0 && SharesOf(b2, 1) == {m1.sender};
  }

  lemma DoThree(f: nat, acts: seq<Act>)
    requires |acts| == 3
    ensures DoAll(f, acts) == Do(Do(Do(EMPTY, f, acts[0]), f, acts[1]), f, acts[2])
  {
    hide Do;
    assert acts[..2][..1] == acts[..1] && acts[..1][..0] == [];
    assert DoAll(f, acts[..1]) == Do(EMPTY, f, acts[0]);
    assert DoAll(f, acts[..2]) == Do(DoAll(f, acts[..1]), f, acts[1]);
  }

  // The share's own hash gives the bit, and the code does not compare it with the
  // round's: with f = 1, peers 1 and 2 send round 0 in order, peer 2 over another
  // hash, and the bit taken in round 0 is not round 0's.
  lemma OtherHashSlips()
    ensures exists acts: seq<Act>, hash: int -> nat ::
      && |acts| == 3
      && (forall i :: 0 <= i < |acts| && acts[i].Arrive? ==> acts[i].m.round == 0)
      && DoAll(1, acts).taken == [1]
      && hash(0) % 2 == 0
  {
    hide Handle, DoAll;
    var hash: int -> nat := r => 0;
    var acts := [Arrive(Share(0, 1, 0)), Arrive(Share(0, 2, 1)), Receive];
    DoThree(1, acts);
    OtherHashBox(Share(0, 1, 0), Share(0, 2, 1));
    assert DoAll(1, acts).taken == [1] && hash(0) % 2 == 0;
    assert forall i :: 0 <= i < |acts| && acts[i].Arrive? ==> acts[i].m.round == 0;
  }

  lemma OtherHashBox(m0: Share, m1: Share)
    requires m0.round == m1.round == 0 && m1.head == 1 && m0.sender != m1.sender
    ensures var b := Handle(Handle(EMPTY, 1, m0, true), 1, m1, true);
      b.queue == [1] && b.taken == []
  {
    hide Handle;
    var b1 := Handle(EMPTY, 1, m0, true);
    HandleShape(EMPTY, 1, m0);
    HandleShape(b1, 1, m1);
    assert SharesOf(b1, 0) == {m0.sender};
  }
}
