// The decision collector of src/consensus/decision.go.

module DecisionInstance {
  import opened Options
  import opened Quorum
  import opened EpochNode
  import opened Certificates

  // producer -> sender -> decision, as recorded decisions leave it behind
  type Table = map<int, map<int, Decision>>

  function Row(t: Table, producer: int): map<int, Decision> {
    if producer in t then t[producer] else map[]
  }

  function TableOf(r: Record): Table {
    match r
    case Blank => map[]
    case Keep(rest, d) =>
      var t := TableOf(rest);
      t[d.producer := Row(t, d.producer)[d.sender := d]]
  }

  // No decision of a sender for a producer was recorded twice.
  predicate Once(r: Record) {
    match r
    case Blank => true
    case Keep(rest, d) => d.sender !in Deciders(rest, d.producer) && Once(rest)
  }

  lemma RowKeep(r: Record, d: Decision, producer: int)
    ensures Row(TableOf(Keep(r, d)), producer) ==
      if producer == d.producer then Row(TableOf(r), producer)[d.sender := d] else Row(TableOf(r), producer)
  {
  }

  // A producer's row holds one decision per recorded sender.
  lemma {:induction false} RowDeciders(r: Record, producer: int)
    ensures Row(TableOf(r), producer).Keys == Deciders(r, producer)
    ensures |Row(TableOf(r), producer)| == |Deciders(r, producer)|
    ensures producer in TableOf(r) <==> Deciders(r, producer) != {}
  {
    if r.Keep? {
      RowDeciders(r.rest, producer);
      RowKeep(r.rest, r.d, producer);
    }
    assert |Row(TableOf(r), producer)| == |Row(TableOf(r), producer).Keys|;
  }

  // The table's entries are exactly the recorded decisions.
  lemma {:induction false} RowKept(r: Record, producer: int, d: Decision)
    requires Once(r)
    ensures var row := Row(TableOf(r), producer);
      (exists x :: x in row && row[x] == d) <==> d in Kept(r) && d.producer == producer
    ensures forall x :: x in Row(TableOf(r), producer) ==> Row(TableOf(r), producer)[x].sender == x
  {
    hide TableOf;
    match r
    case Blank => assert TableOf(Blank) == map[] by { BlankTable(); }
    case Keep(rest, last) =>
      RowKept(rest, producer, d);
      RowKeep(rest, last, producer);
      RowDeciders(rest, producer);
      var row, row' := Row(TableOf(rest), producer), Row(TableOf(r), producer);
      if d in Kept(r) && d.producer == producer {
        if d in Kept(rest) {
          var x :| x in row && row[x] == d;
          assert x in row' && row'[x] == d;
        } else {
          assert row'[d.sender] == d;
        }
      }
  }

  lemma BlankTable()
    ensures TableOf(Blank) == map[]
  {
  }

  class DecisionCollector {
    const f: nat
    // the hash of a proposal
    const hash: seq<seq<QuorumCert>> -> Hash

    var collectDecisions: Table
    // decisions put on the epoch's event channel
    var outputs: seq<Decision>

    ghost var record: Record

    ghost predicate Valid()
      reads this
    {
      collectDecisions == TableOf(record) && Once(record)
    }

    // MakeDecision
    constructor (f: nat, hash: seq<seq<QuorumCert>> -> Hash)
      ensures Valid() && record == Blank && outputs == []
      ensures this.f == f && this.hash == hash
    {
      this.f, this.hash := f, hash;
      collectDecisions, outputs, record := map[], [], Blank;
    }

    method Validate(d: Decision) returns (valid: bool)
      ensures valid <==> Validated(hash, d)
    {
      if !d.delivered {
        return false;
      }
      valid := VerifyAll(hash(d.body.qcs), d.body.proof);
    }

    // The inner loop of handleDecision: the first valid decision found in a row.
    method FirstValid(row: map<int, Decision>) returns (out: Option<Decision>)
      ensures out.Some? ==> (exists x :: x in row && row[x] == out.value) && Validated(hash, out.value)
      ensures out.None? ==> forall x :: x in row ==> !Validated(hash, row[x])
    {
      var left := row.Keys;
      while left != {}
        invariant left <= row.Keys
        invariant forall x :: x in row.Keys - left ==> !Validated(hash, row[x])
        decreases |left|
      {
        SomeElement(left);
        var sender :| sender in left;
        left := left - {sender};
        var valid := Validate(row[sender]);
        if valid {
          return Some(row[sender]);
        }
      }
      return None;
    }

    // The outer loop of handleDecision, over the producers in no fixed order.
    method FindOutput() returns (out: Option<Decision>)
      requires Valid()
      ensures out.Some? ==> Emits(record, f, hash, out.value)
      ensures out.None? ==> forall d :: !Emits(record, f, hash, d)
    {
      hide TableOf, Deciders, Validated, Once, Kept;
      var left := collectDecisions.Keys;
      forall d: Decision | d.producer !in left ensures !Emits(record, f, hash, d) {
        RowDeciders(record, d.producer);
        RowKept(record, d.producer, d);
      }
      while left != {}
        invariant left <= collectDecisions.Keys
        invariant forall d: Decision :: d.producer !in left ==> !Emits(record, f, hash, d)
        decreases |left|
      {
        SomeElement(left);
        var producer :| producer in left;
        left := left - {producer};
        var row := collectDecisions[producer];
        RowDeciders(record, producer);
        forall d: Decision { RowKept(record, producer, d); }
        if |row| == 2 * f + 1 {
          out := FirstValid(row);
          if out.Some? {
            return;
          }
        }
      }
      return None;
    }

    // The decision is recorded unless its sender already has one for its producer;
    // then any valid decision of any producer with exactly 2f+1 goes out.
    method HandleDecision(d: Decision)
      requires Valid()
      modifies this
      ensures Valid() && record == EpochNode.HandleDecision(old(record), d)
      ensures d.sender in Deciders(old(record), d.producer) ==> outputs == old(outputs)
      ensures d.sender !in Deciders(old(record), d.producer) ==>
        || (outputs == old(outputs) && forall e :: !Emits(record, f, hash, e))
        || (|outputs| == |old(outputs)| + 1 && outputs[..|old(outputs)|] == old(outputs)
            && Emits(record, f, hash, outputs[|old(outputs)|]))
    {
      hide Emits;
      RowDeciders(record, d.producer);
      if d.producer in collectDecisions && d.sender in collectDecisions[d.producer] {
        return;
      }
      if d.producer !in collectDecisions {
        collectDecisions := collectDecisions[d.producer := map[]];
      }
      collectDecisions := collectDecisions[d.producer := collectDecisions[d.producer][d.sender := d]];
      record := Keep(record, d);
      var out := FindOutput();
      if out.Some? {
        outputs := outputs + [out.value];
      }
    }
  }
}
