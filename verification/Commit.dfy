// When an epoch reports exit: PB deliveries fill the path and a decision names
// the proposal to commit, in any interleaving (src/consensus/epoch.go).

module Commit {
  import opened Options
  import opened Quorum
  import opened Certificates
  import opened PathStore

  // The fields of Epoch the commit depends on. proposed is the path this node
  // broadcast; exits is history, the proposal of every exit reported.
  datatype State = State(
    store: Store, producerQcs: Option<Proposal>, receiveAll: bool, broadcastedQcs: bool,
    proposed: Option<Proposal>, exits: seq<Proposal>, crashed: bool)

  function Start(k: nat): State {
    State(Empty(k), None, false, false, None, [], false)
  }

  // ----- checkRecvAll -----

  function Flat(p: Proposal): seq<QuorumCert> {
    if p == [] then [] else p[0] + Flat(p[1..])
  }

  // One lookup after the other, up to the first that misses or panics (None).
  function Check(st: Store, qcs: seq<QuorumCert>): Option<bool> {
    if qcs == [] then Some(true)
    else if Exist(st, qcs[0]) == Some(true) then Check(st, qcs[1..])
    else Exist(st, qcs[0])
  }

  ghost predicate AllHeld(st: Store, p: Proposal) {
    forall i, j :: 0 <= i < |p| && 0 <= j < |p[i]| ==> Held(st, p[i][j])
  }

  lemma {:induction false} FlatEntries(p: Proposal, qc: QuorumCert)
    ensures qc in Flat(p) <==> exists i, j :: 0 <= i < |p| && 0 <= j < |p[i]| && p[i][j] == qc
  {
    if p != [] {
      FlatEntries(p[1..], qc);
      if qc in p[0] {
        var j :| 0 <= j < |p[0]| && p[0][j] == qc;
        assert p[0][j] == qc;
      } else if qc in Flat(p[1..]) {
        var i, j :| 0 <= i < |p[1..]| && 0 <= j < |p[1..][i]| && p[1..][i][j] == qc;
        assert p[i + 1][j] == qc;
      }
      if i, j :| 0 <= i < |p| && 0 <= j < |p[i]| && p[i][j] == qc {
        if i > 0 {
          assert p[1..][i - 1][j] == qc;
        }
      }
    }
  }

  // Certificate k has its round out of range, and all before it are held.
  ghost predicate FirstMisplaced(st: Store, qcs: seq<QuorumCert>, k: int) {
    0 <= k < |qcs| && (forall i :: 0 <= i < k ==> Held(st, qcs[i])) && !InRange(st, qcs[k])
  }

  // The first certificate that is not held decides between a miss and a panic.
  lemma {:induction false} CheckFirst(st: Store, qcs: seq<QuorumCert>)
    ensures Check(st, qcs) == Some(true) <==> forall qc :: qc in qcs ==> Held(st, qc)
    ensures Check(st, qcs) == None <==> exists k :: FirstMisplaced(st, qcs, k)
  {
    if qcs != [] {
      var rest := qcs[1..];
      CheckFirst(st, rest);
      assert forall qc :: qc in qcs <==> qc == qcs[0] || qc in rest;
      if Held(st, qcs[0]) {
        if k :| FirstMisplaced(st, qcs, k) {
          assert rest[k - 1] == qcs[k];
          assert forall i :: 0 <= i < k - 1 ==> rest[i] == qcs[i + 1];
          assert FirstMisplaced(st, rest, k - 1);
        }
        if k :| FirstMisplaced(st, rest, k) {
          forall i | 0 <= i < k + 1 ensures Held(st, qcs[i]) {
            if i > 0 { assert qcs[i] == rest[i - 1]; }
          }
          assert FirstMisplaced(st, qcs, k + 1);
        }
      } else if !InRange(st, qcs[0]) {
        assert FirstMisplaced(st, qcs, 0);
      }
    }
  }

  lemma CheckAll(st: Store, p: Proposal)
    ensures Check(st, Flat(p)) == Some(true) <==> AllHeld(st, p)
  {
    CheckFirst(st, Flat(p));
    forall i, j | 0 <= i < |p| && 0 <= j < |p[i]| ensures p[i][j] in Flat(p) {
      FlatEntries(p, p[i][j]);
    }
    forall qc | qc in Flat(p) ensures exists i, j :: 0 <= i < |p| && 0 <= j < |p[i]| && p[i][j] == qc {
      FlatEntries(p, qc);
    }
  }

  // ----- handlers -----

  // decideOut(path.GetBatchSize()): report exit; the size of an empty path panics.
  function DecideOut(s: State): State
    requires s.producerQcs.Some?
  {
    if s.store.batchSize.None? then s.(crashed := true)
    else s.(exits := s.exits + [s.producerQcs.value])
  }

  // A pending commit is completed if everything is there; receiveAll stays.
  function Recover(s: State): State {
    if s.producerQcs.None? || s.receiveAll then s
    else
      match Check(s.store, Flat(s.producerQcs.value))
      case None => s.(crashed := true)
      case Some(all) => if all then DecideOut(s) else s
  }

  function BroadcastPath(s: State): State {
    s.(broadcastedQcs := true, proposed := Some(s.store.qcs))
  }

  function HandlePbOut(s: State, n: int, f: int, qc: QuorumCert, txs: Option<Txs>): State {
    match Exist(s.store, qc)
    case None => s.(crashed := true)
    case Some(found) =>
      if found then s
      else
        match PathStore.Add(s.store, qc, txs)
        case None => s.(crashed := true)
        case Some(st) =>
          var s1 := s.(store := st);
          if !RecvThreshold(st.qcs, n, f) || s.broadcastedQcs then s1
          else
            var s2 := Recover(s1);
            if s2.crashed then s2 else BroadcastPath(s2)
  }

  function HandleDecisionOut(s: State, p: Proposal): State {
    var s1 := s.(producerQcs := Some(p));
    match Check(s1.store, Flat(p))
    case None => s1.(crashed := true)
    case Some(all) => if all then DecideOut(s1.(receiveAll := true)) else s1
  }

  datatype Event = PbOut(qc: QuorumCert, txs: Option<Txs>) | DecisionOut(qcs: Proposal)

  // A panic ends the process.
  function Handle(s: State, n: int, f: int, ev: Event): State {
    if s.crashed then s
    else
      match ev
      case PbOut(qc, txs) => HandlePbOut(s, n, f, qc, txs)
      case DecisionOut(qcs) => HandleDecisionOut(s, qcs)
  }

  function HandleAll(k: nat, n: int, f: int, evs: seq<Event>): State {
    if evs == [] then Start(k) else Handle(HandleAll(k, n, f, evs[..|evs| - 1]), n, f, evs[|evs| - 1])
  }

  // ----- what the path holds -----

  predicate Delivered(st: Store, qc: QuorumCert) {
    qc.initiator in Entry(st, qc.round)
  }

  // Certificates are stored under their own round, each once, each with a
  // transactions entry.
  ghost predicate StoreInv(st: Store) {
    && (forall r, qc :: 0 <= r < |st.qcs| && qc in st.qcs[r] ==> qc.round == r && Delivered(st, qc))
    && (forall r :: 0 <= r < |st.qcs| ==> Distinct(st.qcs[r]))
  }

  ghost predicate StoreGrows(st: Store, st': Store) {
    && |st'.qcs| == |st.qcs|
    && (forall r :: 0 <= r < |st.qcs| ==> st.qcs[r] <= st'.qcs[r])
    && (forall r :: Entry(st, r).Keys <= Entry(st', r).Keys)
  }

  // Everything a proposal lists is held and has its transactions entry.
  ghost predicate Committable(st: Store, p: Proposal) {
    forall i, j :: 0 <= i < |p| && 0 <= j < |p[i]| ==> Held(st, p[i][j]) && Delivered(st, p[i][j])
  }

  ghost predicate Inv(s: State) {
    && StoreInv(s.store)
    && (forall i :: 0 <= i < |s.exits| ==> Committable(s.store, s.exits[i]))
  }

  lemma AddStore(st: Store, qc: QuorumCert, txs: Option<Txs>)
    requires StoreInv(st) && PathStore.Add(st, qc, txs).Some? && !Held(st, qc)
    ensures var st' := PathStore.Add(st, qc, txs).value;
      StoreInv(st') && StoreGrows(st, st') && Held(st', qc)
  {
    var st' := PathStore.Add(st, qc, txs).value;
    DistinctAppend(st.qcs[qc.round], qc);
    forall r ensures Entry(st, r).Keys <= Entry(st', r).Keys {}
  }

  lemma CommittableStays(st: Store, st': Store, p: Proposal)
    requires Committable(st, p) && StoreGrows(st, st')
    ensures Committable(st', p)
  {
    forall i, j | 0 <= i < |p| && 0 <= j < |p[i]| ensures Held(st', p[i][j]) && Delivered(st', p[i][j]) {
      assert Held(st, p[i][j]) && Delivered(st, p[i][j]);
    }
  }

  lemma HeldCommittable(st: Store, p: Proposal)
    requires StoreInv(st) && AllHeld(st, p)
    ensures Committable(st, p)
  {
  }

  // What an event does: the path only grows, and at most one exit is reported,
  // of the proposal on record, with all of it held.
  ghost predicate Advances(s: State, s': State) {
    && StoreGrows(s.store, s'.store)
    && (s'.exits == s.exits
        || (s'.producerQcs.Some? && s'.exits == s.exits + [s'.producerQcs.value]
            && AllHeld(s'.store, s'.producerQcs.value)))
  }

  lemma HandleAdvances(s: State, n: int, f: int, ev: Event)
    requires StoreInv(s.store)
    ensures Advances(s, Handle(s, n, f, ev)) && StoreInv(Handle(s, n, f, ev).store)
  {
    hide Check, RecvThreshold, StoreInv, Flat, AllHeld;
    match ev
    case PbOut(qc, txs) =>
      if PathStore.Add(s.store, qc, txs).Some? && !Held(s.store, qc) {
        AddStore(s.store, qc, txs);
        if s.producerQcs.Some? {
          CheckAll(PathStore.Add(s.store, qc, txs).value, s.producerQcs.value);
        }
      }
    case DecisionOut(p) => CheckAll(s.store, p);
  }

  lemma HandleInv(s: State, n: int, f: int, ev: Event)
    requires Inv(s)
    ensures Inv(Handle(s, n, f, ev)) && StoreGrows(s.store, Handle(s, n, f, ev).store)
  {
    hide Handle, StoreInv, Committable, AllHeld, StoreGrows;
    var s' := Handle(s, n, f, ev);
    HandleAdvances(s, n, f, ev);
    forall i | 0 <= i < |s'.exits| ensures Committable(s'.store, s'.exits[i]) {
      if i < |s.exits| {
        CommittableStays(s.store, s'.store, s.exits[i]);
      } else {
        HeldCommittable(s'.store, s'.exits[i]);
      }
    }
  }

  lemma {:induction false} RunInv(k: nat, n: int, f: int, evs: seq<Event>)
    ensures Inv(HandleAll(k, n, f, evs))
    ensures |HandleAll(k, n, f, evs).store.qcs| == k
  {
    if evs != [] {
      RunInv(k, n, f, evs[..|evs| - 1]);
      HandleInv(HandleAll(k, n, f, evs[..|evs| - 1]), n, f, evs[|evs| - 1]);
    }
  }

  lemma GrowsTrans(a: Store, b: Store, d: Store)
    requires StoreGrows(a, b) && StoreGrows(b, d)
    ensures StoreGrows(a, d)
  {
    forall r | 0 <= r < |a.qcs| ensures a.qcs[r] <= d.qcs[r] {
      assert a.qcs[r] <= b.qcs[r] <= d.qcs[r];
    }
  }

  lemma {:induction false} RunGrows(k: nat, n: int, f: int, evs: seq<Event>, i: nat)
    requires i <= |evs|
    ensures StoreGrows(HandleAll(k, n, f, evs[..i]).store, HandleAll(k, n, f, evs).store)
    decreases |evs|
  {
    hide Handle, StoreGrows, Inv;
    if i == |evs| {
      assert evs[..i] == evs;
      Same(HandleAll(k, n, f, evs).store);
    } else {
      var init := evs[..|evs| - 1];
      assert init[..i] == evs[..i];
      RunGrows(k, n, f, init, i);
      RunInv(k, n, f, init);
      HandleInv(HandleAll(k, n, f, init), n, f, evs[|evs| - 1]);
      GrowsTrans(HandleAll(k, n, f, evs[..i]).store, HandleAll(k, n, f, init).store, HandleAll(k, n, f, evs).store);
    }
  }

  lemma Same(st: Store)
    ensures StoreGrows(st, st)
  {
  }

  // In every interleaving: once exit is reported, every certificate of the
  // committed proposal is in the path under its own round with a transactions
  // entry, then and at every later point.
  lemma CommitHeld(k: nat, n: int, f: int, evs: seq<Event>, t: nat, i: nat)
    requires t <= |evs| && i < |HandleAll(k, n, f, evs[..t]).exits|
    ensures Committable(HandleAll(k, n, f, evs).store, HandleAll(k, n, f, evs[..t]).exits[i])
  {
    hide HandleAll, StoreGrows, Committable, StoreInv;
    RunInv(k, n, f, evs[..t]);
    RunGrows(k, n, f, evs, t);
    var early := HandleAll(k, n, f, evs[..t]);
    CommittableStays(early.store, HandleAll(k, n, f, evs).store, early.exits[i]);
  }

  // The proposal p came with a decision.
  ghost predicate Decided(evs: seq<Event>, p: Proposal) {
    exists i :: 0 <= i < |evs| && evs[i] == DecisionOut(p)
  }

  // Only proposals of decisions are ever committed.
  lemma {:induction false} ExitDecided(k: nat, n: int, f: int, evs: seq<Event>)
    ensures var s := HandleAll(k, n, f, evs);
      && (s.producerQcs.Some? ==> Decided(evs, s.producerQcs.value))
      && (forall i :: 0 <= i < |s.exits| ==> Decided(evs, s.exits[i]))
  {
    hide Check, Flat, RecvThreshold, Decided, StoreInv, StoreGrows, AllHeld;
    if evs != [] {
      var init, ev := evs[..|evs| - 1], evs[|evs| - 1];
      var s := HandleAll(k, n, f, init);
      ExitDecided(k, n, f, init);
      RunInv(k, n, f, init);
      HandleAdvances(s, n, f, ev);
      forall p | Decided(init, p) ensures Decided(evs, p) { DecidedStays(init, ev, evs, p); }
      if ev.DecisionOut? {
        DecidedNow(init, ev, evs, ev.qcs);
      }
    }
  }

  lemma DecidedStays(init: seq<Event>, ev: Event, evs: seq<Event>, p: Proposal)
    requires Decided(init, p) && evs == init + [ev]
    ensures Decided(evs, p)
  {
    var i :| 0 <= i < |init| && init[i] == DecisionOut(p);
    assert evs[i] == DecisionOut(p);
  }

  lemma DecidedNow(init: seq<Event>, ev: Event, evs: seq<Event>, p: Proposal)
    requires evs == init + [ev] && ev == DecisionOut(p)
    ensures Decided(evs, p)
  {
    assert evs[|init|] == DecisionOut(p);
  }

  // ----- exactly when exit is reported -----

  // Certificate j of round i has its round out of range, and all before it are held.
  ghost predicate Misplaced(st: Store, p: Proposal, i: int, j: int) {
    && 0 <= i < |p| && 0 <= j < |p[i]| && !InRange(st, p[i][j])
    && (forall i', j' :: 0 <= i' < i && 0 <= j' < |p[i']| ==> Held(st, p[i'][j']))
    && (forall j' :: 0 <= j' < j ==> Held(st, p[i][j']))
  }

  lemma {:induction false} FlatMisplaced(st: Store, p: Proposal)
    ensures (exists k :: FirstMisplaced(st, Flat(p), k)) <==> exists i, j :: Misplaced(st, p, i, j)
  {
    if p != [] {
      var row, rest := p[0], p[1..];
      FlatMisplaced(st, rest);
      if k :| FirstMisplaced(st, Flat(p), k) {
        if k < |row| {
          assert Misplaced(st, p, 0, k) by {
            assert forall i :: 0 <= i < k ==> Flat(p)[i] == row[i];
          }
        } else {
          forall i | 0 <= i < k - |row| ensures Held(st, Flat(rest)[i]) {
            assert Flat(rest)[i] == Flat(p)[|row| + i];
          }
          assert FirstMisplaced(st, Flat(rest), k - |row|);
          var i, j :| Misplaced(st, rest, i, j);
          forall j' | 0 <= j' < |row| ensures Held(st, row[j']) {
            assert Flat(p)[j'] == row[j'];
          }
          LaterMisplaced(st, p, i, j);
        }
      }
      if i, j :| Misplaced(st, p, i, j) {
        if i == 0 {
          assert FirstMisplaced(st, Flat(p), j);
        } else {
          assert rest[i - 1] == p[i];
          forall i', j' | 0 <= i' < i - 1 && 0 <= j' < |rest[i']| ensures Held(st, rest[i'][j']) {
            assert rest[i'] == p[i' + 1];
          }
          assert Misplaced(st, rest, i - 1, j);
          var k :| FirstMisplaced(st, Flat(rest), k);
          forall x | 0 <= x < |row| + k ensures Held(st, Flat(p)[x]) {
            if x < |row| {
              assert Flat(p)[x] == p[0][x];
            } else {
              assert Flat(p)[x] == Flat(rest)[x - |row|];
            }
          }
          assert FirstMisplaced(st, Flat(p), |row| + k);
        }
      }
    }
  }

  lemma LaterMisplaced(st: Store, p: Proposal, i: int, j: int)
    requires p != [] && Misplaced(st, p[1..], i, j) && forall j' :: 0 <= j' < |p[0]| ==> Held(st, p[0][j'])
    ensures Misplaced(st, p, i + 1, j)
  {
    forall i', j' | 0 <= i' < i + 1 && 0 <= j' < |p[i']| ensures Held(st, p[i'][j']) {
      if i' > 0 {
        assert p[i'] == p[1..][i' - 1];
      }
    }
  }

  // A decision reports exit exactly when the path holds the whole proposal (and
  // anything at all: the size of an empty path panics). It panics besides on a round
  // out of range, if every certificate before that one is held.
  lemma DecisionExitIff(s: State, n: int, f: int, p: Proposal)
    requires !s.crashed
    ensures var s' := Handle(s, n, f, DecisionOut(p));
      && (s'.exits == s.exits + [p] <==> AllHeld(s.store, p) && s.store.batchSize.Some?)
      && (s'.exits != s.exits + [p] ==> s'.exits == s.exits)
      && (s'.crashed <==>
            || (AllHeld(s.store, p) && s.store.batchSize.None?)
            || (exists i, j :: Misplaced(s.store, p, i, j)))
      && s'.store == s.store && s'.producerQcs == Some(p)
      && (s'.receiveAll <==> s.receiveAll || AllHeld(s.store, p))
  {
    hide Check, Flat, AllHeld, Misplaced, Held, InRange;
    CheckAll(s.store, p);
    FlatMisplaced(s.store, p);
    CheckFirst(s.store, Flat(p));
    assert (exists k :: FirstMisplaced(s.store, Flat(p), k)) <==> Check(s.store, Flat(p)) == None;
  }

  // A delivery reports exit exactly when its certificate is new, completes the
  // thresholds before the path was broadcast, and a pending proposal is held.
  lemma DeliveryExitIff(s: State, n: int, f: int, qc: QuorumCert, txs: Option<Txs>)
    requires !s.crashed
    ensures var s' := Handle(s, n, f, PbOut(qc, txs));
      && (s'.exits == s.exits || (s.producerQcs.Some? && s'.exits == s.exits + [s.producerQcs.value]))
      && (s'.exits != s.exits <==>
            && InRange(s.store, qc) && !Held(s.store, qc) && PathStore.Add(s.store, qc, txs).Some?
            && !s.broadcastedQcs && RecvThreshold(PathStore.Add(s.store, qc, txs).value.qcs, n, f)
            && s.producerQcs.Some? && !s.receiveAll
            && AllHeld(PathStore.Add(s.store, qc, txs).value, s.producerQcs.value))
  {
    hide Check, Flat, RecvThreshold, AllHeld;
    if PathStore.Add(s.store, qc, txs).Some? && s.producerQcs.Some? {
      CheckAll(PathStore.Add(s.store, qc, txs).value, s.producerQcs.value);
    }
  }

  // It leaves the proposal on record as it is. It panics exactly on a round out of
  // range, on no transactions in an empty path, or where the recovery does.
  lemma DeliveryPanicIff(s: State, n: int, f: int, qc: QuorumCert, txs: Option<Txs>)
    requires !s.crashed
    ensures var s' := Handle(s, n, f, PbOut(qc, txs));
      && s'.producerQcs == s.producerQcs && s'.receiveAll == s.receiveAll
      && (s'.crashed <==>
            || !InRange(s.store, qc)
            || (!Held(s.store, qc) && s.store.batchSize.None? && txs.None?)
            || (!Held(s.store, qc) && PathStore.Add(s.store, qc, txs).Some?
                && !s.broadcastedQcs && RecvThreshold(PathStore.Add(s.store, qc, txs).value.qcs, n, f)
                && s.producerQcs.Some? && !s.receiveAll
                && exists i, j :: Misplaced(PathStore.Add(s.store, qc, txs).value, s.producerQcs.value, i, j)))
  {
    hide Check, Flat, RecvThreshold, Misplaced;
    if PathStore.Add(s.store, qc, txs).Some? && s.producerQcs.Some? {
      var st, p := PathStore.Add(s.store, qc, txs).value, s.producerQcs.value;
      FlatMisplaced(st, p);
      CheckFirst(st, Flat(p));
      assert (exists k :: FirstMisplaced(st, Flat(p), k)) <==> Check(st, Flat(p)) == None;
    }
  }

  function Continue(s: State, n: int, f: int, evs: seq<Event>): State {
    if evs == [] then s else Handle(Continue(s, n, f, evs[..|evs| - 1]), n, f, evs[|evs| - 1])
  }

  // After the path was broadcast no delivery ever reports exit, whatever arrives.
  lemma {:induction false} LateDeliveries(s: State, n: int, f: int, evs: seq<Event>)
    requires s.broadcastedQcs && forall i :: 0 <= i < |evs| ==> evs[i].PbOut?
    ensures Continue(s, n, f, evs).exits == s.exits && Continue(s, n, f, evs).broadcastedQcs
  {
    hide Check, Flat, RecvThreshold;
    if evs != [] {
      LateDeliveries(s, n, f, evs[..|evs| - 1]);
    }
  }

  lemma Append(k: nat, n: int, f: int, evs: seq<Event>, ev: Event)
    ensures HandleAll(k, n, f, evs + [ev]) == Handle(HandleAll(k, n, f, evs), n, f, ev)
  {
    assert (evs + [ev])[..|evs|] == evs;
  }

  // So a commit can stay pending with everything held. With n = 4 and f = 1, in
  // one round: three initiators' certificates are delivered, which broadcasts the
  // path; the decision lists the fourth's; that one is delivered last.
  lemma PendingForever(q: seq<QuorumCert>, txs: Txs)
    requires |q| == 4 && forall i :: 0 <= i < 4 ==> q[i].round == 0 && q[i].initiator == i
    ensures var p := [[q[0], q[1], q[3]]];
      var evs := [PbOut(q[0], Some(txs)), PbOut(q[1], Some(txs)), PbOut(q[2], Some(txs)), DecisionOut(p),
                  PbOut(q[3], Some(txs))];
      var s := HandleAll(1, 4, 1, evs);
      !s.crashed && s.broadcastedQcs && s.producerQcs == Some(p) && AllHeld(s.store, p) && s.exits == []
  {
    hide HandlePbOut, HandleDecisionOut, HandleAll, Held, Start;
    var p := [[q[0], q[1], q[3]]];
    var e0, e1, e2 := PbOut(q[0], Some(txs)), PbOut(q[1], Some(txs)), PbOut(q[2], Some(txs));
    var e3, e4 := DecisionOut(p), PbOut(q[3], Some(txs));
    NoEvents();
    Append(1, 4, 1, [], e0);
    Append(1, 4, 1, [e0], e1);
    Append(1, 4, 1, [e0, e1], e2);
    Append(1, 4, 1, [e0, e1, e2], e3);
    Append(1, 4, 1, [e0, e1, e2, e3], e4);
    assert [] + [e0] == [e0] && [e0] + [e1] == [e0, e1] && [e0, e1] + [e2] == [e0, e1, e2];
    assert [e0, e1, e2] + [e3] == [e0, e1, e2, e3] && [e0, e1, e2, e3] + [e4] == [e0, e1, e2, e3, e4];
    var s1 := NewDelivery(Start(1), [], q[0], [q[0]], txs);
    var s2 := NewDelivery(s1, [q[0]], q[1], [q[0], q[1]], txs);
    var s3 := NewDelivery(s2, [q[0], q[1]], q[2], [q[0], q[1], q[2]], txs);
    Missing(s3, q);
    LateDelivery(s3.(producerQcs := Some(p)), [q[0], q[1], q[2]], q[3], txs);
    NowHeld(HandlePbOut(s3.(producerQcs := Some(p)), 4, 1, q[3], Some(txs)).store, q);
  }

  lemma NowHeld(st: Store, q: seq<QuorumCert>)
    requires |q| == 4 && forall i :: 0 <= i < 4 ==> q[i].round == 0
    requires st.qcs == [[q[0], q[1], q[2]] + [q[3]]]
    ensures AllHeld(st, [[q[0], q[1], q[3]]])
  {
    assert q[0] in st.qcs[0] && q[1] in st.qcs[0] && q[3] in st.qcs[0];
  }

  lemma NoEvents()
    ensures HandleAll(1, 4, 1, []) == Start(1) && Start(1).store.qcs == [[]] && Start(1).producerQcs == None
    ensures !Start(1).broadcastedQcs && Start(1).exits == [] && !Start(1).crashed
  {
    assert Empty(1).qcs == [[]];
  }

  lemma Threshold(qcs: Proposal)
    requires |qcs| == 1
    ensures RecvThreshold(qcs, 4, 1) <==> |qcs[0]| >= 3
  {
  }

  lemma NewDelivery(s: State, row: seq<QuorumCert>, qc: QuorumCert, row': seq<QuorumCert>, txs: Txs) returns (s': State)
    requires s.store.qcs == [row] && qc.round == 0 && qc !in row && s.producerQcs == None && !s.broadcastedQcs
    requires row' == row + [qc] && !s.crashed
    ensures s' == HandlePbOut(s, 4, 1, qc, Some(txs)) && s'.store.qcs == [row'] && s'.store.batchSize.Some?
    ensures s'.broadcastedQcs <==> |row'| >= 3
    ensures s'.producerQcs == None && s'.exits == s.exits && s'.crashed == s.crashed
  {
    s' := HandlePbOut(s, 4, 1, qc, Some(txs));
    var st := PathStore.Add(s.store, qc, Some(txs)).value;
    assert st.qcs == [row'] && |st.qcs| == 1 && st.qcs[0] == row';
    Threshold(st.qcs);
    assert Exist(s.store, qc) == Some(false);
    assert s' == if RecvThreshold(st.qcs, 4, 1) then BroadcastPath(s.(store := st)) else s.(store := st);
  }

  lemma Missing(s: State, q: seq<QuorumCert>)
    requires |q| == 4 && forall i :: 0 <= i < 4 ==> q[i].round == 0 && q[i].initiator == i
    requires s.store.qcs == [[q[0], q[1], q[2]]]
    ensures var p := [[q[0], q[1], q[3]]];
      HandleDecisionOut(s, p) == s.(producerQcs := Some(p))
  {
    var row := [q[0], q[1], q[3]];
    assert Flat([row]) == row + Flat([row][1..]);
    assert Flat([row]) == row;
    assert q[3] !in s.store.qcs[0];
    assert Check(s.store, row) == Check(s.store, row[1..]) == Check(s.store, row[1..][1..]);
  }

  lemma LateDelivery(s: State, row: seq<QuorumCert>, qc: QuorumCert, txs: Txs)
    requires s.store.qcs == [row] && qc.round == 0 && qc !in row && s.store.batchSize.Some? && s.broadcastedQcs
    ensures var s' := HandlePbOut(s, 4, 1, qc, Some(txs));
      s'.store.qcs == [row + [qc]] && s' == s.(store := s'.store)
  {
  }

  // ----- distinct initiators -----

  // Every stored certificate was delivered by an event.
  lemma {:induction false} FromEvent(k: nat, n: int, f: int, evs: seq<Event>, r: int, qc: QuorumCert)
    requires 0 <= r < |HandleAll(k, n, f, evs).store.qcs| && qc in HandleAll(k, n, f, evs).store.qcs[r]
    ensures exists i :: 0 <= i < |evs| && evs[i].PbOut? && evs[i].qc == qc
  {
    if evs != [] {
      var init := evs[..|evs| - 1];
      var before := HandleAll(k, n, f, init).store.qcs;
      if 0 <= r < |before| && qc in before[r] {
        FromEvent(k, n, f, init, r, qc);
        var i :| 0 <= i < |init| && init[i].PbOut? && init[i].qc == qc;
        assert evs[i].PbOut? && evs[i].qc == qc;
      } else {
        NewCert(HandleAll(k, n, f, init), n, f, evs[|evs| - 1], r, qc);
      }
    }
  }

  lemma NewCert(s: State, n: int, f: int, ev: Event, r: int, qc: QuorumCert)
    requires 0 <= r < |Handle(s, n, f, ev).store.qcs| && qc in Handle(s, n, f, ev).store.qcs[r]
    requires 0 <= r < |s.store.qcs| ==> qc !in s.store.qcs[r]
    ensures ev.PbOut? && ev.qc == qc
  {
    hide Check, Flat, RecvThreshold;
  }

  predicate SameInstance(a: QuorumCert, b: QuorumCert) {
    a.round == b.round && a.initiator == b.initiator
  }

  // Each broadcast instance delivers one certificate, possibly many times.
  ghost predicate OnePerInstance(evs: seq<Event>) {
    forall i, j | 0 <= i < |evs| && 0 <= j < |evs| && evs[i].PbOut? && evs[j].PbOut?
                  && SameInstance(evs[i].qc, evs[j].qc)
      :: evs[i].qc == evs[j].qc
  }

  ghost function Initiators(row: seq<QuorumCert>): set<int> {
    set qc | qc in row :: qc.initiator
  }

  lemma {:induction false} InitiatorCount(row: seq<QuorumCert>)
    requires Distinct(row)
    requires forall a, b :: a in row && b in row && a.initiator == b.initiator ==> a == b
    ensures |Initiators(row)| == |row|
  {
    if row == [] {
      assert Initiators(row) == {};
    } else {
      var init, last := row[..|row| - 1], row[|row| - 1];
      InitiatorCount(init);
      assert row == init + [last];
      assert Initiators(row) == Initiators(init) + {last.initiator};
    }
  }

  // Then duplicates are absorbed: a round lists as many initiators as
  // certificates, and a path over the threshold has n-f of them in every round.
  lemma DistinctInitiators(k: nat, n: int, f: int, evs: seq<Event>, r: int)
    requires OnePerInstance(evs) && 0 <= r < k
    ensures var qcs := HandleAll(k, n, f, evs).store.qcs;
      && |qcs| == k && |Initiators(qcs[r])| == |qcs[r]|
      && (RecvThreshold(qcs, n, f) ==> |Initiators(qcs[r])| >= n - f)
  {
    hide HandleAll;
    RunInv(k, n, f, evs);
    var row := HandleAll(k, n, f, evs).store.qcs[r];
    forall a, b | a in row && b in row && a.initiator == b.initiator ensures a == b {
      FromEvent(k, n, f, evs, r, a);
      FromEvent(k, n, f, evs, r, b);
    }
    InitiatorCount(row);
  }
}
