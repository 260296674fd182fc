// Nobody is put in a connection without the recorded acceptance of everyone it
// takes.
module Consent {
  import opened Prelude
  import opened Network
  import opened Eviction
  import opened Invariants
  import opened Consensus

  // ---- Members have accepted ----

  /** Proposal `p`, accepted, records that `g` agreed to sit in `c`. */
  ghost predicate Agreed(n: Net, c: ConnId, g: GroupId, p: PropId) {
    && p in n.proposals && n.proposals[p].connection == Some(c) && n.proposals[p].status == Accepted
    && g in n.proposals[p].roster && n.proposals[p].roster[g] == Accepted
  }

  ghost predicate Consented(n: Net) {
    forall c, g :: c in n.conns && g in n.conns[c] ==> exists p :: Agreed(n, c, g, p)
  }

  /** Accepted rows of connections that survive are kept. */
  ghost predicate RecordsKept(n: Net, n': Net) {
    forall p :: p in n.proposals && n.proposals[p].status == Accepted && In(n.proposals[p].connection, n'.conns.Keys)
      ==> p in n'.proposals && n'.proposals[p] == n.proposals[p]
  }

  lemma ConsentSurvives(n: Net, n': Net)
    requires Consented(n) && RecordsKept(n, n')
    requires forall c :: c in n'.conns ==> c in n.conns && n'.conns[c] <= n.conns[c]
    ensures Consented(n')
  {
    forall c, g | c in n'.conns && g in n'.conns[c]
      ensures exists p :: Agreed(n', c, g, p)
    {
      assert c in n.conns && g in n.conns[c];
      var p :| Agreed(n, c, g, p);
      assert Agreed(n', c, g, p);
    }
  }

  lemma ConsentGrows(n: Net, n': Net, c: ConnId, p: PropId)
    requires Consented(n) && RecordsKept(n, n')
    requires forall d :: d in n'.conns && d != c ==> d in n.conns && n'.conns[d] == n.conns[d]
    requires forall g :: g in MembersOf(n', c) ==> g in MembersOf(n, c) || Agreed(n', c, g, p)
    ensures Consented(n')
  {
    forall d, g | d in n'.conns && g in n'.conns[d]
      ensures exists q :: Agreed(n', d, g, q)
    {
      if d != c || g in MembersOf(n, c) {
        assert d in n.conns && g in n.conns[d];
        var q :| Agreed(n, d, g, q);
        assert Agreed(n', d, g, q);
      }
    }
  }

  lemma EvictionKeepsConsent(n: Net, cs: set<ConnId>, g: GroupId, n': Net)
    requires Consented(n) && n' == Evicted(n, cs, g)
    ensures Consented(n')
  {
    ConsentSurvives(n, n');
  }

  lemma AnswerKeepsRecords(n: Net, p: PropId, n': Net)
    requires p in n.proposals && n.proposals[p].status == Pending && Answered(n, p, n')
    ensures RecordsKept(n, n')
  {
  }

  lemma FormationKeepsConsent(n: Net, p: PropId, g: GroupId, now: int)
    requires Sound(n) && Consented(n) && Finalizes(n, p, g, true, now) && n.proposals[p].kind.Formation?
    ensures Consented(Respond(n, p, g, true, now).value)
  {
    FinalFormation(n, p, g, now);
    RespondAnswers(n, p, g, true, now);
    AnswerKeepsRecords(n, p, Respond(n, p, g, true, now).value);
    FoundersAgreed(n, p, g, now);
    ConsentGrows(n, Respond(n, p, g, true, now).value, n.next, p);
  }

  lemma FoundersAgreed(n: Net, p: PropId, g: GroupId, now: int)
    requires Sound(n) && Finalizes(n, p, g, true, now) && n.proposals[p].kind.Formation?
    ensures var n' := Respond(n, p, g, true, now).value;
      forall x :: x in MembersOf(n', n.next) ==> Agreed(n', n.next, x, p)
  {
    var n' := Respond(n, p, g, true, now).value;
    FinalFormation(n, p, g, now);
    FormationAnswer(n, p, g, now);
    FormationRecords(n, p, g, now);
    assert RosterFits(n, n.proposals[p]);
    forall x | x in MembersOf(n', n.next)
      ensures Agreed(n', n.next, x, p)
    {
      AllAccepted(n.proposals[p].roster, g, x);
    }
  }

  lemma FormationRecords(n: Net, p: PropId, g: GroupId, now: int)
    requires Finalizes(n, p, g, true, now) && n.proposals[p].kind.Formation?
    ensures Respond(n, p, g, true, now).value.proposals[p].connection == Some(n.next)
    ensures Respond(n, p, g, true, now).value.proposals[p].status == Accepted
  {
  }

  lemma AllAccepted(roster: map<GroupId, Status>, g: GroupId, x: GroupId)
    requires WithStatus(roster, Declined) == {} && WithStatus(roster[g := Accepted], Pending) == {}
    requires x in roster
    ensures roster[g := Accepted][x] == Accepted
  {
    assert x !in WithStatus(roster, Declined) && x !in WithStatus(roster[g := Accepted], Pending);
  }

  lemma ExpansionKeepsConsent(n: Net, p: PropId, g: GroupId, now: int)
    requires Sound(n) && Consented(n) && Finalizes(n, p, g, true, now) && n.proposals[p].kind.Expansion?
    ensures Consented(Respond(n, p, g, true, now).value)
  {
    var n' := Respond(n, p, g, true, now).value;
    FinalExpansion(n, p, g, now);
    RespondAnswers(n, p, g, true, now);
    AnswerKeepsRecords(n, p, n');
    NewMembersAgreed(n, p, g, now);
    ConsentGrows(n, n', n.proposals[p].connection.value, p);
  }

  lemma NewMembersAgreed(n: Net, p: PropId, g: GroupId, now: int)
    requires Sound(n) && Finalizes(n, p, g, true, now) && n.proposals[p].kind.Expansion?
    ensures var c := n.proposals[p].connection.value;
      var n' := Respond(n, p, g, true, now).value;
      forall x :: x in MembersOf(n', c) && x !in MembersOf(n, c) ==> Agreed(n', c, x, p)
  {
    var n' := Respond(n, p, g, true, now).value;
    FinalExpansion(n, p, g, now);
    ExpansionAnswer(n, p, g, now);
    ExpansionRecords(n, p, g, now);
    assert RosterFits(n, n.proposals[p]);
    var c := n.proposals[p].connection.value;
    forall x | x in MembersOf(n', c) && x !in MembersOf(n, c)
      ensures Agreed(n', c, x, p)
    {
      AllAccepted(n.proposals[p].roster, g, x);
    }
  }

  lemma ExpansionRecords(n: Net, p: PropId, g: GroupId, now: int)
    requires Finalizes(n, p, g, true, now) && n.proposals[p].kind.Expansion? && n.proposals[p].connection.Some?
    ensures Respond(n, p, g, true, now).Ok? ==>
      p in Respond(n, p, g, true, now).value.proposals && Respond(n, p, g, true, now).value.proposals[p].status == Accepted
  {
  }

  lemma OpenKeepsConsent(n: Net, p: PropId, g: GroupId, accept: bool, now: int)
    requires Sound(n) && Consented(n) && Respond(n, p, g, accept, now).Ok? && !Finalizes(n, p, g, accept, now)
    ensures Consented(Respond(n, p, g, accept, now).value)
  {
    OpenResponse(n, p, g, accept, now);
    RespondAnswers(n, p, g, accept, now);
    ConsentSurvives(n, Respond(n, p, g, accept, now).value);
  }

  lemma ResponseKeepsConsent(n: Net, e: Event)
    requires Sound(n) && Consented(n) && e.RespondToProposal?
    ensures Consented(Step(n, e))
  {
    if Outcome(n, e).Ok? {
      if !Finalizes(n, e.proposal, e.group, e.accept, e.now) {
        OpenKeepsConsent(n, e.proposal, e.group, e.accept, e.now);
      } else if n.proposals[e.proposal].kind.Formation? {
        FormationKeepsConsent(n, e.proposal, e.group, e.now);
      } else {
        ExpansionKeepsConsent(n, e.proposal, e.group, e.now);
      }
    }
  }

  lemma OpeningKeepsRecords(n: Net, e: Event)
    requires Sound(n) && (e.ProposeConnection? || e.InviteToConnection?)
    ensures RecordsKept(n, Step(n, e))
  {
  }

  lemma SameConnectionsKeepConsent(n: Net, n': Net)
    requires Consented(n) && n'.conns == n.conns && n'.proposals == n.proposals
    ensures Consented(n')
  {
    ConsentSurvives(n, n');
  }

  lemma FrameKeepsConsent(n: Net, e: Event)
    requires Sound(n) && Consented(n) && LeavesConnections(e)
    ensures Consented(Step(n, e))
  {
    ConnectionFrame(n, e);
    if e.ProposeConnection? || e.InviteToConnection? {
      OpeningKeepsRecords(n, e);
      ConsentSurvives(n, Step(n, e));
    } else {
      SameConnectionsKeepConsent(n, Step(n, e));
    }
  }

  lemma DepartureKeepsConsent(n: Net, c: ConnId, g: GroupId)
    requires Sound(n) && Consented(n) && Leave(n, c, g).Ok?
    ensures Consented(Leave(n, c, g).value)
  {
    RemovalIsEviction(n, c, g);
    EvictionKeepsConsent(n, {c}, g, Leave(n, c, g).value);
  }

  lemma BlockKeepsConsent(n: Net, a: GroupId, b: GroupId)
    requires Sound(n) && Consented(n) && Block(n, a, b).Ok?
    ensures Consented(Block(n, a, b).value)
  {
    var n1 := n.(blocks := n.blocks + {(a, b)});
    ConsentSurvives(n, n1);
    BlockIsEviction(n, a, b);
    EvictionKeepsConsent(n1, SharedConnections(n, a, b), b, Block(n, a, b).value);
  }

  lemma ConsentStep(n: Net, e: Event)
    requires Sound(n) && Consented(n)
    ensures Consented(Step(n, e))
  {
    if e.RespondToProposal? {
      ResponseKeepsConsent(n, e);
    } else if LeavesConnections(e) {
      FrameKeepsConsent(n, e);
    } else if Outcome(n, e).Ok? {
      match e {
        case LeaveConnection(c, g) => DepartureKeepsConsent(n, c, g);
        case BlockGroup(a, b) => BlockKeepsConsent(n, a, b);
        case UnblockGroup(a, b) => SameConnectionsKeepConsent(n, Unblock(n, a, b).value);
      }
    }
  }

  /** In every state of every history, each member of each connection has an
      acceptance on record: a proposal for that connection, accepted, on whose
      roster that very group accepted. */
  lemma {:induction false} MembersConsented(n: Net, es: seq<Event>)
    requires Sound(n) && Consented(n)
    ensures Consented(Run(n, es))
    decreases |es|
  {
    if es != [] {
      SoundStep(n, es[0]);
      ConsentStep(n, es[0]);
      MembersConsented(Step(n, es[0]), es[1..]);
    }
  }

  // ---- Unanimity ----

  lemma RosterKeysStep(n: Net, e: Event, p: PropId)
    requires Sound(n) && p < n.next
    ensures p in Step(n, e).proposals ==> p in n.proposals && Step(n, e).proposals[p].roster.Keys == n.proposals[p].roster.Keys
  {
    if e.RespondToProposal? && e.proposal == p {
      if Outcome(n, e).Ok? {
        AnswerKeepsRoster(n, p, e.group, e.accept, e.now);
      }
    } else {
      OthersKeepProposal(n, e, p);
    }
  }

  lemma {:induction false} RosterKeysThroughout(n: Net, es: seq<Event>, p: PropId)
    requires Sound(n) && p < n.next
    ensures Sound(Run(n, es))
    ensures p in Run(n, es).proposals ==> p in n.proposals && Run(n, es).proposals[p].roster.Keys == n.proposals[p].roster.Keys
    decreases |es|
  {
    if es != [] {
      RosterKeysStep(n, es[0], p);
      SoundStep(n, es[0]);
      StepKeepsIssued(n, es[0]);
      RosterKeysThroughout(Step(n, es[0]), es[1..], p);
    }
  }

  /** All of `groups` are on the roster and have accepted. */
  ghost predicate AllAccept(roster: map<GroupId, Status>, groups: set<GroupId>) {
    forall g :: g in groups ==> g in roster && roster[g] == Accepted
  }

  lemma AcceptedByAll(roster: map<GroupId, Status>, groups: set<GroupId>)
    requires groups <= roster.Keys && WithStatus(roster, Accepted) == roster.Keys
    ensures AllAccept(roster, groups)
  {
    assert forall g :: g in groups ==> g in WithStatus(roster, Accepted);
  }

  /** Whatever happens after a formation is proposed, it is accepted only with the
      acceptance of its proposer and of every group it was addressed to. */
  lemma FormationIsUnanimous(n: Net, proposer: GroupId, targets: seq<GroupId>, now: int, es: seq<Event>)
    requires Sound(n) && Propose(n, proposer, targets, now).Ok?
    ensures var n' := Run(Propose(n, proposer, targets, now).value, es);
      n.next in n'.proposals && n'.proposals[n.next].status == Accepted ==>
        AllAccept(n'.proposals[n.next].roster, Listed(targets) + {proposer})
  {
    var n1 := Propose(n, proposer, targets, now).value;
    ProposeKeeps(n, proposer, targets, now);
    RosterKeysThroughout(n1, es, n.next);
    var n' := Run(n1, es);
    if n.next in n'.proposals && n'.proposals[n.next].status == Accepted {
      assert RosterFits(n', n'.proposals[n.next]);
      AcceptedByAll(n'.proposals[n.next].roster, Listed(targets) + {proposer});
    }
  }

  /** ... and an expansion only with that of the invited group and of everyone who
      was a member when it was proposed. */
  lemma ExpansionIsUnanimous(n: Net, c: ConnId, proposer: GroupId, target: GroupId, now: int, es: seq<Event>)
    requires Sound(n) && Invite(n, c, proposer, target, now).Ok?
    ensures var n' := Run(Invite(n, c, proposer, target, now).value, es);
      n.next in n'.proposals && n'.proposals[n.next].status == Accepted ==>
        AllAccept(n'.proposals[n.next].roster, n.conns[c] + {target})
  {
    var n1 := Invite(n, c, proposer, target, now).value;
    InviteKeeps(n, c, proposer, target, now);
    RosterKeysThroughout(n1, es, n.next);
    var n' := Run(n1, es);
    if n.next in n'.proposals && n'.proposals[n.next].status == Accepted {
      assert RosterFits(n', n'.proposals[n.next]);
      AcceptedByAll(n'.proposals[n.next].roster, n.conns[c] + {target});
    }
  }
}
