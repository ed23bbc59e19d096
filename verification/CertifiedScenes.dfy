// Two runs of a broadcast with n = 4, f = 1, peer 3 faulty and initiator 0
// following the code: a vote accepted too early, and a delivery without a payload.

module CertifiedScenes {
  import opened Options
  import opened Quorum
  import opened Certificates
  import opened Certified

  ghost predicate Arises(c: Cfg, s: Sys) {
    exists run :: IsRun(c, run) && run[|run| - 1] == s
  }

  lemma ArisesStep(c: Cfg, s: Sys, step: Step, s': Sys)
    requires Arises(c, s) && Next(c, s, step, s')
    ensures Arises(c, s')
  {
    hide Next, Init;
    var run :| IsRun(c, run) && run[|run| - 1] == s;
    var longer := run + [s'];
    forall i | 0 < i < |longer| ensures Steps(c, longer[i - 1], longer[i]) {
      if i < |run| {
        assert Steps(c, run[i - 1], run[i]);
      }
    }
    assert IsRun(c, longer);
  }

  // ----- the setting -----

  const HASH: Hash := 7
  const PAYLOAD := Txs([])
  const SETTING := Cfg(4, 1, {3}, 0, PB, (p: Payload) => HASH)
  const NEW := Node(ZERO, None, map[], {}, [])

  function S(x: Node, y: Node, z: Node, proposal: Option<Payload>, early: set<int>): Sys {
    Sys(map[0 := x, 1 := y, 2 := z], proposal, early)
  }

  lemma Setting()
    ensures ValidCfg(SETTING) && Correct(SETTING) == {0, 1, 2} && Peers(4) == {0, 1, 2, 3}
  {
    assert forall x :: x in Peers(4) <==> x in {0, 1, 2, 3};
    assert Peers(4) - {3} == {0, 1, 2};
  }

  lemma StartArises()
    ensures Arises(SETTING, S(NEW, NEW, NEW, None, {}))
  {
    Setting();
    var s := S(NEW, NEW, NEW, None, {});
    assert Init(SETTING, s);
    assert IsRun(SETTING, [s]);
  }

  // Peer p handles a message.
  lemma Delivers(s: Sys, p: int, m: Msg)
    requires Arises(SETTING, s) && 0 in s.nodes && 1 in s.nodes && 2 in s.nodes && p in {0, 1, 2}
    requires Author(m) == 3 || (Author(m) in {0, 1, 2} && m in s.nodes[Author(m)].sent)
    ensures Arises(SETTING, s.(nodes := s.nodes[p := Handle(SETTING, s.nodes[p], p, m, true)]))
  {
    hide Arises, Handle;
    Setting();
    ArisesStep(SETTING, s, Deliver(p, m, true), s.(nodes := s.nodes[p := Handle(SETTING, s.nodes[p], p, m, true)]));
  }

  lemma Proposes(x: Node, y: Node, z: Node)
    requires Arises(SETTING, S(x, y, z, None, {}))
    ensures Arises(SETTING, S(Propose(SETTING, x, 0, PAYLOAD), y, z, Some(PAYLOAD), x.sigs.Keys))
  {
    hide Arises, Propose, ValidCfg, Peers;
    Setting();
    var s := S(x, y, z, None, {});
    var s' := S(Propose(SETTING, x, 0, PAYLOAD), y, z, Some(PAYLOAD), x.sigs.Keys);
    assert s.nodes[0 := Propose(SETTING, x, 0, PAYLOAD)] == s'.nodes;
    ArisesStep(SETTING, s, Start(PAYLOAD), s');
  }

  // A vote over the zero hash is accepted before the proposal is made.
  lemma EarlyVoteArises()
    ensures exists c: Cfg, run: seq<Sys> ::
      ValidCfg(c) && IsRun(c, run) && run[|run| - 1].proposal.Some? && run[|run| - 1].early != {}
  {
    hide Arises, IsRun;
    Setting();
    StartArises();
    var vote := Ack(ZERO, Sig(3, ZERO), 3);
    Delivers(S(NEW, NEW, NEW, None, {}), 0, vote);
    var x := Handle(SETTING, NEW, 0, vote, true);
    assert x.sigs == map[3 := Sig(3, ZERO)];
    assert S(NEW, NEW, NEW, None, {}).nodes[0 := x] == S(x, NEW, NEW, None, {}).nodes;
    Proposes(x, NEW, NEW);
    assert 3 in x.sigs.Keys;
    var run := RunOf(S(Propose(SETTING, x, 0, PAYLOAD), NEW, NEW, Some(PAYLOAD), x.sigs.Keys));
  }

  lemma RunOf(s: Sys) returns (run: seq<Sys>)
    requires Arises(SETTING, s)
    ensures IsRun(SETTING, run) && run != [] && run[|run| - 1] == s
  {
    hide Init, Steps;
    run :| IsRun(SETTING, run) && run[|run| - 1] == s;
  }

  // ----- a DONE handled before the SEND -----

  const SEND := Send(0, PAYLOAD, HASH, Sig(0, HASH))

  function Vote(v: int): Msg {
    Ack(HASH, Sig(v, HASH), v)
  }

  const SIGS: map<int, Sig> := map[0 := Sig(0, HASH), 1 := Sig(1, HASH), 3 := Sig(3, HASH)]

  const PROPOSED := Propose(SETTING, NEW, 0, PAYLOAD)
  const HOLDING := HandleSend(SETTING, PROPOSED, 0, 0, PAYLOAD, HASH, Sig(0, HASH), true)
  const VOTER := HandleSend(SETTING, NEW, 1, 0, PAYLOAD, HASH, Sig(0, HASH), true)

  // Peer 0 after the votes of 0, 1 and 3.
  function Voted(): Node {
    var one := Handle(SETTING, HOLDING, 0, Vote(0), true);
    var two := Handle(SETTING, one, 0, Vote(1), true);
    Handle(SETTING, two, 0, Vote(3), true)
  }

  lemma Certifies()
    ensures Done(0, HASH, SIGS) in Voted().sent
  {
    var one := Handle(SETTING, HOLDING, 0, Vote(0), true);
    assert one.sigs == map[0 := Sig(0, HASH)] && one.sigs.Keys == {0} && |one.sigs| == |one.sigs.Keys|;
    var two := Handle(SETTING, one, 0, Vote(1), true);
    assert two.sigs == map[0 := Sig(0, HASH), 1 := Sig(1, HASH)] && two.sigs.Keys == {0, 1}
           && |two.sigs| == |two.sigs.Keys|;
    assert two.sigs[3 := Sig(3, HASH)] == SIGS && SIGS.Keys == {0, 1, 3} && |SIGS| == |SIGS.Keys|;
  }

  lemma Held()
    ensures PROPOSED == Propose(SETTING, NEW, 0, PAYLOAD) && SEND in PROPOSED.sent && NEW.sigs.Keys == {}
    ensures HOLDING == Handle(SETTING, PROPOSED, 0, SEND, true) && Vote(0) in HOLDING.sent && SEND in HOLDING.sent
    ensures VOTER == Handle(SETTING, NEW, 1, SEND, true) && Vote(1) in VOTER.sent
  {
  }

  // The initiator's certificate is complete.
  lemma CertificateArises()
    ensures Arises(SETTING, S(Voted(), VOTER, NEW, Some(PAYLOAD), {}))
  {
    hide Arises, S, Handle, Propose, PROPOSED, HOLDING, VOTER, NEW, SETTING, Vote;
    StartArises();
    Held();
    Voters();
    Proposes(NEW, NEW, NEW);
    Nodes(PROPOSED, NEW, NEW);
    Delivers(S(PROPOSED, NEW, NEW, Some(PAYLOAD), {}), 0, SEND);
    Nodes(HOLDING, NEW, NEW);
    Delivers(S(HOLDING, NEW, NEW, Some(PAYLOAD), {}), 1, SEND);
    Nodes(HOLDING, VOTER, NEW);
    Delivers(S(HOLDING, VOTER, NEW, Some(PAYLOAD), {}), 0, Vote(0));
    var one := Handle(SETTING, HOLDING, 0, Vote(0), true);
    Nodes(one, VOTER, NEW);
    Delivers(S(one, VOTER, NEW, Some(PAYLOAD), {}), 0, Vote(1));
    var two := Handle(SETTING, one, 0, Vote(1), true);
    Nodes(two, VOTER, NEW);
    Delivers(S(two, VOTER, NEW, Some(PAYLOAD), {}), 0, Vote(3));
    Nodes(Voted(), VOTER, NEW);
  }

  lemma Voters()
    ensures Author(Vote(0)) == 0 && Author(Vote(1)) == 1 && Author(Vote(3)) == 3 && Author(SEND) == 0
  {
  }

  lemma Nodes(x: Node, y: Node, z: Node)
    ensures var s := S(x, y, z, Some(PAYLOAD), {});
      && 0 in s.nodes && 1 in s.nodes && 2 in s.nodes && s.nodes[0] == x && s.nodes[1] == y && s.nodes[2] == z
      && (forall n :: s.(nodes := s.nodes[0 := n]) == S(n, y, z, Some(PAYLOAD), {}))
      && (forall n :: s.(nodes := s.nodes[1 := n]) == S(x, n, z, Some(PAYLOAD), {}))
      && (forall n :: s.(nodes := s.nodes[2 := n]) == S(x, y, n, Some(PAYLOAD), {}))
  {
  }

  // Peer 2 handles the DONE before the SEND: its delivery has no payload and
  // carries the zero hash, not the one proposed.
  lemma DoneBeforeSendArises()
    ensures exists c: Cfg, run: seq<Sys> :: ValidCfg(c) && IsRun(c, run) && DeliversZero(c, run[|run| - 1])
  {
    hide Arises, IsRun, S, Voted;
    Setting();
    Certifies();
    CertificateArises();
    Nodes(Voted(), VOTER, NEW);
    var done := Done(0, HASH, SIGS);
    Delivers(S(Voted(), VOTER, NEW, Some(PAYLOAD), {}), 2, done);
    var z := Handle(SETTING, NEW, 2, done, true);
    assert z.outs == [Output(ZERO, None, SIGS)];
    Nodes(Voted(), VOTER, z);
    AsProposed(Voted(), VOTER, z);
    var run := RunOf(S(Voted(), VOTER, z, Some(PAYLOAD), {}));
  }

  ghost predicate DeliversZero(c: Cfg, s: Sys) {
    && s.proposal.Some? && c.sha(s.proposal.value) != ZERO
    && exists p, o :: p in Correct(c) && p in s.nodes && o in s.nodes[p].outs && o.hash == ZERO && o.payload == None
  }

  lemma AsProposed(x: Node, y: Node, z: Node)
    requires z.outs == [Output(ZERO, None, SIGS)]
    ensures DeliversZero(SETTING, S(x, y, z, Some(PAYLOAD), {}))
  {
    Setting();
    var s := S(x, y, z, Some(PAYLOAD), {});
    assert Output(ZERO, None, SIGS) in s.nodes[2].outs;
  }
}
