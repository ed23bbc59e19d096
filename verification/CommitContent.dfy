// What the path, its entries and the broadcast path hold after any interleaving of
// deliveries and decisions.

module CommitContent {
  import opened Options
  import opened Certificates
  import opened PathStore
  import opened Commit

  // ----- what one event changes -----

  // The path is left as it is, or the certificate of a new delivery is added to it.
  lemma StoreStep(s: State, n: int, f: int, ev: Event)
    ensures var s' := Handle(s, n, f, ev);
      || s'.store == s.store
      || (ev.PbOut? && !s.crashed && InRange(s.store, ev.qc) && !Held(s.store, ev.qc)
          && PathStore.Add(s.store, ev.qc, ev.txs) == Some(s'.store))
  {
    hide Check, Flat, RecvThreshold;
  }

  // A delivery that is handled is held from then on, or ends the process.
  lemma DeliveryHeld(s: State, n: int, f: int, ev: Event)
    requires ev.PbOut?
    ensures Handle(s, n, f, ev).crashed || Held(Handle(s, n, f, ev).store, ev.qc)
  {
    hide Check, Flat, RecvThreshold;
  }

  lemma CrashStays(s: State, n: int, f: int, ev: Event)
    requires s.crashed
    ensures Handle(s, n, f, ev) == s
  {
  }

  lemma {:induction false} Over(k: nat, n: int, f: int, evs: seq<Event>, i: nat, qc: QuorumCert)
    requires i <= |evs|
    ensures HandleAll(k, n, f, evs[..i]).crashed ==> HandleAll(k, n, f, evs) == HandleAll(k, n, f, evs[..i])
    ensures Held(HandleAll(k, n, f, evs[..i]).store, qc) ==> Held(HandleAll(k, n, f, evs).store, qc)
    decreases |evs|
  {
    hide Handle;
    if i == |evs| {
      assert evs[..i] == evs;
    } else {
      var init := evs[..|evs| - 1];
      assert init[..i] == evs[..i];
      Over(k, n, f, init, i, qc);
      if HandleAll(k, n, f, init).crashed {
        CrashStays(HandleAll(k, n, f, init), n, f, evs[|evs| - 1]);
      }
      StoreStep(HandleAll(k, n, f, init), n, f, evs[|evs| - 1]);
    }
  }

  // ----- transactions entries -----

  // Event i puts a certificate in the path.
  predicate Stored(k: nat, n: int, f: int, evs: seq<Event>, i: int) {
    && 0 <= i < |evs| && evs[i].PbOut?
    && HandleAll(k, n, f, evs[..i + 1]).store.qcs != HandleAll(k, n, f, evs[..i]).store.qcs
  }

  predicate From(ev: Event, r: int, x: int) {
    ev.PbOut? && ev.qc.round == r && ev.qc.initiator == x
  }

  // Event i is the last to put a certificate of round r and initiator x in the path.
  ghost predicate LastStored(k: nat, n: int, f: int, evs: seq<Event>, i: int, r: int, x: int) {
    && 0 <= i < |evs| && Stored(k, n, f, evs, i) && From(evs[i], r, x)
    && forall j :: i < j < |evs| && From(evs[j], r, x) ==> !Stored(k, n, f, evs, j)
  }

  lemma StoredSame(k: nat, n: int, f: int, evs: seq<Event>, i: int)
    requires 0 <= i < |evs| - 1
    ensures Stored(k, n, f, evs, i) == Stored(k, n, f, evs[..|evs| - 1], i)
  {
    var init := evs[..|evs| - 1];
    assert init[..i] == evs[..i] && init[..i + 1] == evs[..i + 1];
  }

  lemma StoredLast(k: nat, n: int, f: int, evs: seq<Event>)
    requires evs != []
    ensures var init := evs[..|evs| - 1];
      Stored(k, n, f, evs, |evs| - 1) <==>
        evs[|evs| - 1].PbOut? && HandleAll(k, n, f, evs).store.qcs != HandleAll(k, n, f, init).store.qcs
  {
    assert evs[..|evs|] == evs;
  }

  // The entry of a round and initiator holds the transactions of the last delivery
  // stored for them, whatever came in between.
  lemma {:induction false} EntryLast(k: nat, n: int, f: int, evs: seq<Event>, r: int, x: int) returns (i: nat)
    requires x in Entry(HandleAll(k, n, f, evs).store, r)
    ensures LastStored(k, n, f, evs, i, r, x) && Entry(HandleAll(k, n, f, evs).store, r)[x] == evs[i].txs
  {
    hide Handle, Stored;
    if evs == [] {
      NoEntry(k, r);
    }
    var init, ev := evs[..|evs| - 1], evs[|evs| - 1];
    var s := HandleAll(k, n, f, init);
    StoreStep(s, n, f, ev);
    StoredLast(k, n, f, evs);
    if HandleAll(k, n, f, evs).store != s.store && From(ev, r, x) {
      i := |evs| - 1;
    } else {
      i := EntryLast(k, n, f, init, r, x);
      StoredSame(k, n, f, evs, i);
      forall j | i < j < |evs| && From(evs[j], r, x) ensures !Stored(k, n, f, evs, j) {
        if j < |evs| - 1 {
          StoredSame(k, n, f, evs, j);
        }
      }
    }
  }

  lemma NoEntry(k: nat, r: int)
    ensures Entry(Start(k).store, r) == map[]
  {
  }

  // A certificate is stored at its first delivery only.
  lemma StoredFirst(k: nat, n: int, f: int, evs: seq<Event>, i: nat, j: nat)
    requires j < i && Stored(k, n, f, evs, i) && evs[j].PbOut?
    ensures evs[j].qc != evs[i].qc
  {
    hide Handle;
    var early, qc := evs[..j + 1], evs[j].qc;
    assert evs[..i][..j + 1] == early && early[..j] == evs[..j] && evs[..i + 1][..i] == evs[..i];
    DeliveryHeld(HandleAll(k, n, f, evs[..j]), n, f, evs[j]);
    Over(k, n, f, evs[..i], j + 1, qc);
    StoreStep(HandleAll(k, n, f, evs[..i]), n, f, evs[i]);
  }

  // So with one certificate per instance, each certificate in the path has the
  // transactions of its own first delivery.
  lemma EntryOwn(k: nat, n: int, f: int, evs: seq<Event>, r: int, qc: QuorumCert) returns (i: nat)
    requires OnePerInstance(evs)
    requires 0 <= r < |HandleAll(k, n, f, evs).store.qcs| && qc in HandleAll(k, n, f, evs).store.qcs[r]
    ensures i < |evs| && evs[i].PbOut? && evs[i].qc == qc && qc.initiator in Entry(HandleAll(k, n, f, evs).store, r)
    ensures forall j :: 0 <= j < i && evs[j].PbOut? ==> evs[j].qc != qc
    ensures Entry(HandleAll(k, n, f, evs).store, r)[qc.initiator] == evs[i].txs
  {
    hide HandleAll, Stored;
    i := EntryOf(k, n, f, evs, r, qc);
    FromEvent(k, n, f, evs, r, qc);
    forall j: nat | j < i && evs[j].PbOut? ensures evs[j].qc != evs[i].qc {
      StoredFirst(k, n, f, evs, i, j);
    }
  }

  // In any case it has those of some delivery of its round and initiator.
  lemma EntryOf(k: nat, n: int, f: int, evs: seq<Event>, r: int, qc: QuorumCert) returns (i: nat)
    requires 0 <= r < |HandleAll(k, n, f, evs).store.qcs| && qc in HandleAll(k, n, f, evs).store.qcs[r]
    ensures qc.round == r && qc.initiator in Entry(HandleAll(k, n, f, evs).store, r)
    ensures LastStored(k, n, f, evs, i, r, qc.initiator)
    ensures Entry(HandleAll(k, n, f, evs).store, r)[qc.initiator] == evs[i].txs
  {
    hide HandleAll, Stored;
    RunInv(k, n, f, evs);
    i := EntryLast(k, n, f, evs, r, qc.initiator);
  }

  // ----- batch size -----

  // Event i is the first delivery, of so many transactions.
  ghost predicate FirstBatch(evs: seq<Event>, i: int, size: nat) {
    && 0 <= i < |evs| && evs[i].PbOut? && evs[i].txs.Some? && |evs[i].txs.value| == size
    && forall j :: 0 <= j < i ==> evs[j].DecisionOut?
  }

  // The batch size, once there, is the number of transactions of the first delivery.
  lemma {:induction false} BatchFirst(k: nat, n: int, f: int, evs: seq<Event>)
    ensures var s := HandleAll(k, n, f, evs);
      && (s.store.batchSize.Some? ==>
            exists i :: FirstBatch(evs, i, s.store.batchSize.value))
      && (s.store.batchSize.None? && !s.crashed ==> forall i :: 0 <= i < |evs| ==> evs[i].DecisionOut?)
  {
    hide Handle;
    if evs != [] {
      var init, ev := evs[..|evs| - 1], evs[|evs| - 1];
      var s := HandleAll(k, n, f, init);
      BatchFirst(k, n, f, init);
      BatchStep(s, n, f, ev);
      if s.store.batchSize.Some? {
        var i :| FirstBatch(init, i, s.store.batchSize.value);
        assert FirstBatch(evs, i, s.store.batchSize.value);
      } else if HandleAll(k, n, f, evs).store.batchSize.Some? {
        assert FirstBatch(evs, |init|, |ev.txs.value|);
      } else if ev.PbOut? && Held(s.store, ev.qc) {
        FromEvent(k, n, f, init, ev.qc.round, ev.qc);
      }
    }
  }

  lemma BatchStep(s: State, n: int, f: int, ev: Event)
    ensures var s' := Handle(s, n, f, ev);
      && (s.store.batchSize.Some? ==> s'.store.batchSize == s.store.batchSize)
      && (s.crashed ==> s' == s)
      && (s.store.batchSize.None? && !s.crashed && !s'.crashed && ev.PbOut? && !Held(s.store, ev.qc) ==>
            s'.store.batchSize.Some?)
      && (s.store.batchSize.None? && s'.store.batchSize.Some? ==>
            !s.crashed && ev.PbOut? && ev.txs.Some? && s'.store.batchSize == Some(|ev.txs.value|))
  {
    hide Check, Flat, RecvThreshold;
  }

  // ----- the path that is broadcast -----

  // Something is delivered, and every round has n-f certificates.
  ghost predicate Full(qcs: Proposal, n: int, f: int) {
    (exists r :: 0 <= r < |qcs| && qcs[r] != []) && forall r :: 0 <= r < |qcs| ==> |qcs[r]| >= n - f
  }

  lemma StoreFull(st: Store, n: int, f: int, qc: QuorumCert, txs: Option<Txs>)
    requires PathStore.Add(st, qc, txs).Some?
    ensures var qcs := PathStore.Add(st, qc, txs).value.qcs;
      && (Full(qcs, n, f) <==> RecvThreshold(qcs, n, f)) && (Full(st.qcs, n, f) ==> Full(qcs, n, f))
  {
    var qcs := PathStore.Add(st, qc, txs).value.qcs;
    assert qcs[qc.round] != [];
  }

  lemma BroadcastStep(s: State, n: int, f: int, ev: Event)
    ensures var s' := Handle(s, n, f, ev);
      && (s.broadcastedQcs ==> s'.broadcastedQcs && s'.proposed == s.proposed)
      && (!s.broadcastedQcs && s'.broadcastedQcs ==> s'.proposed == Some(s'.store.qcs) && Full(s'.store.qcs, n, f))
      && (!s.broadcastedQcs && !s'.broadcastedQcs ==> s'.proposed == s.proposed)
      && (!s'.broadcastedQcs && !s'.crashed && s'.store != s.store ==> !Full(s'.store.qcs, n, f))
      && (s.crashed ==> s'.crashed)
  {
    hide Check, Flat, RecvThreshold, Full;
    if ev.PbOut? && PathStore.Add(s.store, ev.qc, ev.txs).Some? {
      StoreFull(s.store, n, f, ev.qc, ev.txs);
    }
  }

  // A running node has broadcast its path exactly when the path is full, and what it
  // broadcast is the path as it was at some point, full then.
  lemma {:induction false} BroadcastIff(k: nat, n: int, f: int, evs: seq<Event>)
    ensures var s := HandleAll(k, n, f, evs);
      && (!s.crashed ==> (s.broadcastedQcs <==> Full(s.store.qcs, n, f)))
      && (s.broadcastedQcs <==> s.proposed.Some?)
      && (s.broadcastedQcs ==>
            Full(s.proposed.value, n, f) && exists i :: WasPath(k, n, f, evs, i, s.proposed.value))
  {
    hide Handle, Full;
    if evs == [] {
      NothingFull(k, n, f);
    } else {
      var init, ev := evs[..|evs| - 1], evs[|evs| - 1];
      var s, s' := HandleAll(k, n, f, init), HandleAll(k, n, f, evs);
      BroadcastIff(k, n, f, init);
      BroadcastStep(s, n, f, ev);
      StoreStep(s, n, f, ev);
      if s'.store != s.store {
        StoreFull(s.store, n, f, ev.qc, ev.txs);
      }
      if s.broadcastedQcs {
        var i :| WasPath(k, n, f, init, i, s.proposed.value);
        assert init[..i] == evs[..i];
        assert WasPath(k, n, f, evs, i, s'.proposed.value);
      } else if s'.broadcastedQcs {
        assert evs[..|evs|] == evs;
        assert WasPath(k, n, f, evs, |evs|, s'.proposed.value);
      }
    }
  }

  predicate WasPath(k: nat, n: int, f: int, evs: seq<Event>, i: int, p: Proposal) {
    0 <= i <= |evs| && HandleAll(k, n, f, evs[..i]).store.qcs == p
  }

  lemma NothingFull(k: nat, n: int, f: int)
    ensures !Full(Start(k).store.qcs, n, f)
  {
  }
}
