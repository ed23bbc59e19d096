// Paths filled by broadcast instances whose initiators follow the code.

module Delivery {
  import opened Options
  import opened Quorum
  import opened Certificates
  import opened PathStore
  import opened Commit
  import opened CommitContent
  import C = Certified

  // Instance (round, initiator) of the epoch: its configuration and state.
  datatype Instance = Instance(cfg: C.Cfg, sys: C.Sys)

  type Instances = map<(int, int), Instance>

  // One PB instance per round and initiator, in a reachable state; all initiators
  // in question follow the code.
  ghost predicate Sound(insts: Instances) {
    forall r, i :: (r, i) in insts ==>
      && insts[(r, i)].cfg.kind == C.PB && insts[(r, i)].cfg.from == i
      && C.ValidCfg(insts[(r, i)].cfg) && C.Inv(insts[(r, i)].cfg, insts[(r, i)].sys)
  }

  function CertOf(r: int, i: int, o: C.Output): QuorumCert {
    QuorumCert(r, i, o.hash, o.sigs)
  }

  function TxsOf(o: C.Output): Option<Txs> {
    match o.payload
    case Some(Txs(txs)) => Some(txs)
    case _ => None
  }

  // Peer p delivered the event's certificate after it had handled the SEND.
  ghost predicate DeliveredAt(insts: Instances, p: int, qc: QuorumCert, txs: Option<Txs>) {
    && (qc.round, qc.initiator) in insts
    && var inst := insts[(qc.round, qc.initiator)];
       && p in C.Correct(inst.cfg) && p in inst.sys.nodes
       && exists o | o in inst.sys.nodes[p].outs && o.payload.Some?
            :: qc == CertOf(qc.round, qc.initiator, o) && txs == TxsOf(o)
  }

  predicate Known(insts: Instances, qc: QuorumCert) {
    (qc.round, qc.initiator) in insts
  }

  // Deliveries of the instances at hand are theirs, after the SEND; deliveries of
  // all others, as from faulty initiators, are arbitrary.
  ghost predicate OwnDelivered(insts: Instances, p: int, evs: seq<Event>) {
    forall i :: 0 <= i < |evs| && evs[i].PbOut? && Known(insts, evs[i].qc) ==>
      DeliveredAt(insts, p, evs[i].qc, evs[i].txs)
  }

  // No instance is missing.
  ghost predicate AllKnown(insts: Instances, evs: seq<Event>) {
    forall i :: 0 <= i < |evs| && evs[i].PbOut? ==> Known(insts, evs[i].qc)
  }

  // Any two correct replicas deliver equal certificates and transactions.
  lemma EqualDeliveries(insts: Instances, p: int, qc: QuorumCert, txs: Option<Txs>, p': int, qc': QuorumCert,
                        txs': Option<Txs>)
    requires Sound(insts) && DeliveredAt(insts, p, qc, txs) && DeliveredAt(insts, p', qc', txs')
    requires SameInstance(qc, qc')
    ensures qc == qc' && txs == txs'
  {
    hide C.Inv;
    var inst := insts[(qc.round, qc.initiator)];
    var o :| o in inst.sys.nodes[p].outs && o.payload.Some? && qc == CertOf(qc.round, qc.initiator, o)
             && txs == TxsOf(o);
    var o' :| o' in inst.sys.nodes[p'].outs && o'.payload.Some? && qc' == CertOf(qc.round, qc.initiator, o')
              && txs' == TxsOf(o');
    C.IdenticalDelivery(inst.cfg, inst.sys, p, o, p', o');
  }

  // Two correct replicas never hold different certificates of one instance whose
  // initiator follows the code, whatever else was delivered to them.
  lemma PathsAgree(insts: Instances, p: int, p': int, k: nat, n: int, f: int, evs: seq<Event>, evs': seq<Event>,
                   r: int, qc: QuorumCert, qc': QuorumCert)
    requires Sound(insts) && OwnDelivered(insts, p, evs) && OwnDelivered(insts, p', evs') && 0 <= r < k
    requires var row, row' := HandleAll(k, n, f, evs).store.qcs, HandleAll(k, n, f, evs').store.qcs;
      r < |row| && r < |row'| && qc in row[r] && qc' in row'[r] && qc.initiator == qc'.initiator
    requires (r, qc.initiator) in insts
    ensures qc == qc'
  {
    hide Sound, DeliveredAt, HandleAll;
    RunInv(k, n, f, evs);
    RunInv(k, n, f, evs');
    FromEvent(k, n, f, evs, r, qc);
    FromEvent(k, n, f, evs', r, qc');
    var i :| 0 <= i < |evs| && evs[i].PbOut? && evs[i].qc == qc;
    var j :| 0 <= j < |evs'| && evs'[j].PbOut? && evs'[j].qc == qc';
    EqualDeliveries(insts, p, qc, evs[i].txs, p', qc', evs'[j].txs);
  }

  // A delivery after the SEND brings the transactions its initiator proposed.
  lemma DeliversProposal(insts: Instances, p: int, qc: QuorumCert, txs: Option<Txs>)
    requires Sound(insts) && DeliveredAt(insts, p, qc, txs)
    ensures txs.Some? && insts[(qc.round, qc.initiator)].sys.proposal == Some(C.Txs(txs.value))
  {
    hide C.OwnMsg;
    var inst := insts[(qc.round, qc.initiator)];
    assert C.NodeInv(inst.cfg, inst.sys, p);
    var o :| o in inst.sys.nodes[p].outs && o.payload.Some? && qc == CertOf(qc.round, qc.initiator, o)
             && txs == TxsOf(o);
    assert C.OutInv(inst.cfg, inst.sys, p, o);
  }

  // The entry for the certificate is what its initiator proposed.
  predicate HasProposed(insts: Instances, st: Store, qc: QuorumCert) {
    && Known(insts, qc) && qc.initiator in Entry(st, qc.round)
    && var txs := Entry(st, qc.round)[qc.initiator];
       txs.Some? && insts[(qc.round, qc.initiator)].sys.proposal == Some(C.Txs(txs.value))
  }

  // For every certificate in the path of an instance whose initiator follows the code,
  // the entry holds the transactions that were proposed, whatever else was delivered.
  lemma EntryProposed(insts: Instances, p: int, k: nat, n: int, f: int, evs: seq<Event>, r: int, qc: QuorumCert)
    requires Sound(insts) && OwnDelivered(insts, p, evs) && 0 <= r < k && (r, qc.initiator) in insts
    requires var qcs := HandleAll(k, n, f, evs).store.qcs; r < |qcs| && qc in qcs[r]
    ensures HasProposed(insts, HandleAll(k, n, f, evs).store, qc)
  {
    hide Sound, DeliveredAt, HandleAll, Stored, Entry;
    var i := EntryOf(k, n, f, evs, r, qc);
    DeliversProposal(insts, p, evs[i].qc, evs[i].txs);
  }

  // So once exit is reported, the committed proposal's certificates of such instances
  // have the proposed transactions, then and at every later point.
  lemma CommitProposed(insts: Instances, p: int, k: nat, n: int, f: int, evs: seq<Event>, t: nat, x: nat, i: nat,
                       j: nat)
    requires Sound(insts) && OwnDelivered(insts, p, evs) && t <= |evs| && x < |HandleAll(k, n, f, evs[..t]).exits|
    requires var proposal := HandleAll(k, n, f, evs[..t]).exits[x];
      i < |proposal| && j < |proposal[i]| && Known(insts, proposal[i][j])
    ensures HasProposed(insts, HandleAll(k, n, f, evs).store, HandleAll(k, n, f, evs[..t]).exits[x][i][j])
  {
    hide Sound, DeliveredAt, HandleAll, Entry;
    var qc := HandleAll(k, n, f, evs[..t]).exits[x][i][j];
    CommitHeld(k, n, f, evs, t, x);
    assert Held(HandleAll(k, n, f, evs).store, qc);
    RunInv(k, n, f, evs);
    EntryProposed(insts, p, k, n, f, evs, qc.round, qc);
  }

  // With faulty deliveries mixed in, an initiator that follows the code still has at
  // most one certificate in a round.
  lemma OneCertificateEach(insts: Instances, p: int, k: nat, n: int, f: int, evs: seq<Event>, r: int, i: nat, j: nat)
    requires Sound(insts) && OwnDelivered(insts, p, evs) && 0 <= r < k
    requires var qcs := HandleAll(k, n, f, evs).store.qcs;
      r < |qcs| && i < j < |qcs[r]| && qcs[r][i].initiator == qcs[r][j].initiator
    ensures (r, HandleAll(k, n, f, evs).store.qcs[r][i].initiator) !in insts
  {
    hide Sound, DeliveredAt, HandleAll;
    var row := HandleAll(k, n, f, evs).store.qcs[r];
    RunInv(k, n, f, evs);
    if (r, row[i].initiator) in insts {
      PathsAgree(insts, p, p, k, n, f, evs, evs, r, row[i], row[j]);
      DistinctEntries(row, i, j);
    }
  }

  // So a correct replica's path over the threshold lists n-f distinct initiators in
  // every round if all of them follow the code, however often instances deliver.
  lemma PathInitiators(insts: Instances, p: int, k: nat, n: int, f: int, evs: seq<Event>, r: int)
    requires Sound(insts) && OwnDelivered(insts, p, evs) && AllKnown(insts, evs) && 0 <= r < k
    ensures var qcs := HandleAll(k, n, f, evs).store.qcs;
      && |qcs| == k && |Initiators(qcs[r])| == |qcs[r]|
      && (RecvThreshold(qcs, n, f) ==> |Initiators(qcs[r])| >= n - f)
  {
    hide Sound, DeliveredAt, HandleAll;
    forall i, j | 0 <= i < |evs| && 0 <= j < |evs| && evs[i].PbOut? && evs[j].PbOut?
      && SameInstance(evs[i].qc, evs[j].qc)
      ensures evs[i].qc == evs[j].qc
    {
      EqualDeliveries(insts, p, evs[i].qc, evs[i].txs, p, evs[j].qc, evs[j].txs);
    }
    DistinctInitiators(k, n, f, evs, r);
  }
}
