// Who may sit together in a connection, and what proposals can and cannot do.
module Consensus {
  import opened Prelude
  import opened Network
  import opened Eviction
  import opened Invariants

  // ---- Finalizing a proposal ----

  /** The response that completes a roster. */
  predicate Finalizes(n: Net, p: PropId, g: GroupId, accept: bool, now: int) {
    && ResponseError(n, p, g, now).None? && accept
    && WithStatus(n.proposals[p].roster[g := Accepted], Pending) == {}
  }

  /** A complete formation makes one connection of exactly the groups on its
      roster and leaves the others alone. */
  lemma FinalFormation(n: Net, p: PropId, g: GroupId, now: int)
    requires Sound(n) && Finalizes(n, p, g, true, now) && n.proposals[p].kind.Formation?
    ensures Respond(n, p, g, true, now).Ok?
    ensures Respond(n, p, g, true, now).value.conns == n.conns[n.next := n.proposals[p].roster.Keys]
    ensures n.next !in n.conns
  {
    assert RosterFits(n, n.proposals[p]);
    RespondForms(n, p, g, now);
  }

  /** A complete expansion adds the one group on its roster that is not a member,
      unless that group and some member block each other; it adds nobody else and
      touches no other connection. */
  lemma FinalExpansion(n: Net, p: PropId, g: GroupId, now: int)
    requires Sound(n) && Finalizes(n, p, g, true, now) && n.proposals[p].kind.Expansion?
    ensures Respond(n, p, g, true, now).Ok?
    ensures var c := n.proposals[p].connection.value;
      var n' := Respond(n, p, g, true, now).value;
      && n'.conns == n.conns[c := n'.conns[c]]
      && |n'.conns[c]| <= |n.conns[c]| + 1
      && forall x :: x in n'.conns[c] <==>
           x in n.conns[c] || (x in n.proposals[p].roster && !BlockedWithAny(n.blocks, x, n.conns[c]))
  {
    assert RosterFits(n, n.proposals[p]);
    RespondExpands(n, p, g, now);
    var c := n.proposals[p].connection.value;
    var members := n.conns[c];
    var outsiders := n.proposals[p].roster.Keys - members;
    RowOrderLists(outsiders);
    var rows := RowOrder(outsiders);
    if outsiders == {} {
      assert rows == [];
    } else {
      assert rows[0] in rows;
      assert outsiders == {rows[0]};
      assert rows == [rows[0]];
      assert Admit(members, n.blocks, rows)
          == if BlockedWithAny(n.blocks, rows[0], members) then members else members + {rows[0]};
    }
    var members' := Admit(members, n.blocks, rows);
    forall x | x in n.proposals[p].roster && !BlockedWithAny(n.blocks, x, members)
      ensures x in members'
    {
      assert x in members || x in outsiders;
    }
  }

  // ---- Block separation ----

  ghost predicate PairwiseUnblocked(blocks: set<(GroupId, GroupId)>, members: set<GroupId>) {
    forall a, b :: a in members && b in members && a != b ==> (a, b) !in blocks
  }

  /** No connection holds two groups one of which blocks the other. */
  ghost predicate Separated(n: Net) {
    forall c :: c in n.conns ==> PairwiseUnblocked(n.blocks, n.conns[c])
  }

  /** The response that turns a formation into a connection. */
  predicate ClosesFormation(n: Net, e: Event) {
    e.RespondToProposal? && Finalizes(n, e.proposal, e.group, e.accept, e.now) && n.proposals[e.proposal].kind.Formation?
  }

  /** formConnection does not look at blocks; this is what it would have to find. */
  ghost predicate CleanFormation(n: Net, e: Event) {
    ClosesFormation(n, e) ==> PairwiseUnblocked(n.blocks, n.proposals[e.proposal].roster.Keys)
  }

  lemma FormationSeparation(n: Net, p: PropId, g: GroupId, now: int)
    requires Sound(n) && Separated(n) && Finalizes(n, p, g, true, now) && n.proposals[p].kind.Formation?
    ensures Separated(Respond(n, p, g, true, now).value) <==> PairwiseUnblocked(n.blocks, n.proposals[p].roster.Keys)
  {
    FinalFormation(n, p, g, now);
    RespondAnswers(n, p, g, true, now);
    OneMoreConnection(n, Respond(n, p, g, true, now).value, n.proposals[p].roster.Keys);
  }

  lemma OneMoreConnection(n: Net, n': Net, members: set<GroupId>)
    requires Separated(n) && n.next !in n.conns && n'.conns == n.conns[n.next := members] && n'.blocks == n.blocks
    ensures Separated(n') <==> PairwiseUnblocked(n.blocks, members)
  {
    assert n'.conns[n.next] == members;
  }

  lemma ExpansionSeparation(n: Net, p: PropId, g: GroupId, now: int)
    requires Sound(n) && Separated(n) && Finalizes(n, p, g, true, now) && n.proposals[p].kind.Expansion?
    ensures Separated(Respond(n, p, g, true, now).value)
  {
    FinalExpansion(n, p, g, now);
    RespondAnswers(n, p, g, true, now);
    var c := n.proposals[p].connection.value;
    var n' := Respond(n, p, g, true, now).value;
    assert RosterFits(n, n.proposals[p]);
    NewcomerSeparation(n.blocks, n.conns[c], n.proposals[p].roster, n'.conns[c]);
  }

  lemma NewcomerSeparation(blocks: set<(GroupId, GroupId)>, members: set<GroupId>, roster: map<GroupId, Status>, members': set<GroupId>)
    requires PairwiseUnblocked(blocks, members) && AtMostOneOutsider(roster, members)
    requires forall x :: x in members' <==> x in members || (x in roster && !BlockedWithAny(blocks, x, members))
    ensures PairwiseUnblocked(blocks, members')
  {
    forall a, b | a in members' && b in members' && a != b
      ensures (a, b) !in blocks
    {
      if a !in members {
        assert b in members;
        assert !Blocked(blocks, b, a);
      } else if b !in members {
        assert !Blocked(blocks, a, b);
      }
    }
  }

  /** A response that does not complete its roster leaves connections alone. */
  lemma OpenResponse(n: Net, p: PropId, g: GroupId, accept: bool, now: int)
    requires !Finalizes(n, p, g, accept, now)
    ensures Respond(n, p, g, accept, now).Ok? ==>
      Respond(n, p, g, accept, now).value == n.(proposals := Respond(n, p, g, accept, now).value.proposals)
  {
  }

  lemma ResponseSeparation(n: Net, e: Event)
    requires Sound(n) && Separated(n) && e.RespondToProposal?
    ensures Separated(Step(n, e)) <==> CleanFormation(n, e)
  {
    var p := e.proposal;
    if Finalizes(n, p, e.group, e.accept, e.now) {
      if n.proposals[p].kind.Formation? {
        FinalFormation(n, p, e.group, e.now);
        FormationSeparation(n, p, e.group, e.now);
      } else {
        FinalExpansion(n, p, e.group, e.now);
        ExpansionSeparation(n, p, e.group, e.now);
      }
    } else {
      OpenResponse(n, p, e.group, e.accept, e.now);
    }
  }

  lemma EvictionSeparation(n: Net, cs: set<ConnId>, g: GroupId)
    requires Separated(n)
    ensures Separated(Evicted(n, cs, g))
  {
  }

  lemma BlockSeparation(n: Net, a: GroupId, b: GroupId)
    requires Separated(n) && Block(n, a, b).Ok?
    ensures Separated(Block(n, a, b).value)
  {
    BlockIsEviction(n, a, b);
    var n' := Block(n, a, b).value;
    forall c | c in n'.conns
      ensures PairwiseUnblocked(n'.blocks, n'.conns[c])
    {
      if a in n.conns[c] && b in n.conns[c] {
        assert c in SharedConnections(n, a, b);
        assert b !in n'.conns[c];
      }
    }
  }

  /** The steps that open a proposal or touch only groups, chats or secrets. */
  predicate LeavesConnections(e: Event) {
    !e.RespondToProposal? && !e.LeaveConnection? && !e.BlockGroup? && !e.UnblockGroup?
  }

  predicate OnSecrets(e: Event) {
    e.AddSecret? || e.FlagRekey? || e.Rekey? || e.RotateSecret?
  }

  predicate OnProposals(e: Event) {
    e.ProposeConnection? || e.InviteToConnection? || e.UnblockGroup?
  }

  predicate OnChats(e: Event) {
    e.ProposeSignalChat? || e.VoteOnChat? || e.AddGroupSignal? || e.DeactivateSignal?
  }

  /** These touch neither connections nor blocks nor proposals. */
  lemma SecretFrame(n: Net, e: Event)
    requires OnSecrets(e)
    ensures Step(n, e) == n.(next := Step(n, e).next, secrets := Step(n, e).secrets)
    ensures Step(n, e).next >= n.next
  {
    if e.Rekey? {
      RekeysTouchKeysOnly(n, PendingRekeys(n, e.caller, e.publicKeys), e.entries);
    }
  }

  /** Only identifiers, chats, signal groups and secrets may differ. */
  predicate SameConnections(n: Net, n': Net) {
    n' == n.(next := n'.next, chats := n'.chats, signals := n'.signals, secrets := n'.secrets) && n'.next >= n.next
  }

  lemma ProposeChatFrame(n: Net, e: Event)
    requires e.ProposeSignalChat?
    ensures SameConnections(n, Step(n, e))
  {
  }

  lemma VoteFrame(n: Net, e: Event)
    requires e.VoteOnChat?
    ensures SameConnections(n, Step(n, e))
  {
  }

  lemma ChatFrame(n: Net, e: Event)
    requires OnChats(e)
    ensures SameConnections(n, Step(n, e))
  {
    if e.ProposeSignalChat? {
      ProposeChatFrame(n, e);
    } else if e.VoteOnChat? {
      VoteFrame(n, e);
    }
  }

  predicate OnGroups(e: Event) {
    e.AddUser? || e.RemoveUser? || e.FoundGroup? || e.GroupEvent?
  }

  lemma GroupFrame(n: Net, e: Event)
    requires OnGroups(e)
    ensures Step(n, e).conns == n.conns && Step(n, e).blocks == n.blocks && Step(n, e).proposals == n.proposals
    ensures Step(n, e).signals == n.signals && Step(n, e).next >= n.next
  {
    if e.GroupEvent? && Outcome(n, e).Ok? {
      GroupEventRewrites(n, e.group, e.event);
    }
  }

  lemma ConnectionFrame(n: Net, e: Event)
    requires LeavesConnections(e)
    ensures Step(n, e).conns == n.conns && Step(n, e).blocks == n.blocks && Step(n, e).next >= n.next
    ensures !e.ProposeConnection? && !e.InviteToConnection? ==> Step(n, e).proposals == n.proposals
  {
    if OnSecrets(e) {
      SecretFrame(n, e);
    } else if OnChats(e) {
      ChatFrame(n, e);
    } else if OnGroups(e) {
      GroupFrame(n, e);
    }
  }

  lemma AnswerFrame(n: Net, p: PropId, n': Net)
    requires p in n.proposals && Answered(n, p, n')
    ensures n' == n.(next := n'.next, conns := n'.conns, proposals := n'.proposals)
    ensures forall q :: q in n'.proposals && q != p ==> q in n.proposals && n'.proposals[q] == n.proposals[q]
  {
  }

  lemma ResponseFrame(n: Net, e: Event)
    requires Sound(n) && e.RespondToProposal?
    ensures Step(n, e) == n.(next := Step(n, e).next, conns := Step(n, e).conns, proposals := Step(n, e).proposals)
    ensures forall p :: p in Step(n, e).proposals && p != e.proposal ==> p in n.proposals && Step(n, e).proposals[p] == n.proposals[p]
  {
    if Outcome(n, e).Ok? {
      RespondAnswers(n, e.proposal, e.group, e.accept, e.now);
      AnswerFrame(n, e.proposal, Step(n, e));
    }
  }

  lemma OtherSeparation(n: Net, e: Event)
    requires Separated(n) && !e.RespondToProposal?
    ensures Separated(Step(n, e))
  {
    if LeavesConnections(e) {
      ConnectionFrame(n, e);
    } else if Outcome(n, e).Ok? {
      if e.LeaveConnection? {
        RemovalIsEviction(n, e.connection, e.group);
        EvictionSeparation(n, {e.connection}, e.group);
      } else if e.BlockGroup? {
        BlockSeparation(n, e.blocker, e.blocked);
      }
    }
  }

  /** Every step keeps separation except a formation whose accepted groups are not
      pairwise unblocked at that moment, which breaks it. */
  lemma SeparationStepIff(n: Net, e: Event)
    requires Sound(n) && Separated(n)
    ensures Separated(Step(n, e)) <==> CleanFormation(n, e)
  {
    if e.RespondToProposal? {
      ResponseSeparation(n, e);
    } else {
      OtherSeparation(n, e);
    }
  }

  ghost predicate AlwaysSeparated(n: Net, es: seq<Event>)
    decreases |es|
  {
    Separated(n) && (es != [] ==> AlwaysSeparated(Step(n, es[0]), es[1..]))
  }

  ghost predicate FormationsClean(n: Net, es: seq<Event>)
    decreases |es|
  {
    es != [] ==> CleanFormation(n, es[0]) && FormationsClean(Step(n, es[0]), es[1..])
  }

  /** A whole history is separated in all its states exactly when each of its
      formations was clean at the moment it closed. */
  lemma {:induction false} SeparatedThroughoutIff(n: Net, es: seq<Event>)
    requires Sound(n) && Separated(n)
    ensures AlwaysSeparated(n, es) <==> FormationsClean(n, es)
    decreases |es|
  {
    if es != [] {
      SeparationStepIff(n, es[0]);
      SoundStep(n, es[0]);
      if Separated(Step(n, es[0])) {
        SeparatedThroughoutIff(Step(n, es[0]), es[1..]);
      } else {
        assert !AlwaysSeparated(Step(n, es[0]), es[1..]);
      }
    }
  }

  const OPENED := Proposal(Formation, None, 0, Pending, map[0 := Accepted, 1 := Pending], PROPOSAL_LIFETIME)

  lemma ProposedOf(n: Net)
    requires n.next == 2 && n.groups.Keys == {0, 1} && n.blocks == {} && n.proposals == map[]
    ensures Propose(n, 0, [1], 0) == Ok(n.(next := 3, proposals := map[2 := OPENED]))
  {
    assert TargetError(n, 0, [1]).None? by { assert TargetError(n, 0, []).None?; }
    assert FormationRoster(0, [1]) == map[0 := Accepted, 1 := Pending];
  }

  lemma BlockedOf(n: Net)
    requires n.groups.Keys == {0, 1} && n.blocks == {} && n.conns == map[]
    ensures Block(n, 0, 1) == Ok(n.(blocks := {(0, 1)}))
  {
    var pair: (GroupId, GroupId) := (0, 1);
    assert n.blocks + {pair} == {pair};
    assert SharedConnections(n, 0, 1) == {};
    assert RowOrder({}) == [];
    assert EvictEach(n.(blocks := {pair}), [], 1) == n.(blocks := {pair});
  }

  /** Two groups founded by one user, and a proposal from the first to the second. */
  lemma TwoInvited() returns (es: seq<Event>)
    ensures var n := Run(EMPTY, es);
      && n.next == 3 && n.users == {0} && n.groups.Keys == {0, 1} && n.blocks == {} && n.conns == map[] && n.signals == map[]
      && n.proposals == map[2 := OPENED] && n.chats == map[] && n.secrets == map[] && 0 in AdminsOf(n, 0)
  {
    var e0, e1, e2, e3 := AddUser(0), FoundGroup(0, 2), FoundGroup(0, 2), ProposeConnection(0, [1], 0);
    RunOne(EMPTY, e0);
    RunOneMore(EMPTY, [e0], e1);
    RunOneMore(EMPTY, [e0] + [e1], e2);
    var n2 := Run(EMPTY, [e0] + [e1] + [e2]);
    ProposedOf(n2);
    RunOneMore(EMPTY, [e0] + [e1] + [e2], e3);
    es := [e0] + [e1] + [e2] + [e3];
  }

  /** Blocking after the proposal and before the last acceptance puts two groups
      together although one blocks the other. */
  lemma BlockedGroupsCanMeet() returns (es: seq<Event>)
    ensures !Separated(Run(EMPTY, es))
  {
    var opening := TwoInvited();
    var n3 := Run(EMPTY, opening);
    BlockedOf(n3);
    RunOneMore(EMPTY, opening, BlockGroup(0, 1));
    var n4 := Step(n3, BlockGroup(0, 1));
    FormedOf(n4);
    RunOneMore(EMPTY, opening + [BlockGroup(0, 1)], RespondToProposal(2, 1, true, 0));
    es := opening + [BlockGroup(0, 1)] + [RespondToProposal(2, 1, true, 0)];
    MeetingIsNotSeparated(Run(EMPTY, es));
  }

  lemma MeetingIsNotSeparated(n: Net)
    requires n.conns == map[3 := {0, 1}] && n.blocks == {(0, 1)}
    ensures !Separated(n)
  {
    assert !PairwiseUnblocked(n.blocks, n.conns[3]);
  }

  lemma FormedOf(n: Net)
    requires n.next == 3 && n.conns == map[] && 2 in n.proposals
    requires n.proposals[2] == OPENED
    ensures Respond(n, 2, 1, true, 0).Ok?
    ensures Respond(n, 2, 1, true, 0).value.conns == map[3 := {0, 1}] && Respond(n, 2, 1, true, 0).value.blocks == n.blocks
  {
    var roster := map[0 := Accepted, 1 := Accepted];
    assert map[0 := Accepted, 1 := Pending][1 := Accepted] == roster;
    assert WithStatus(roster, Pending) == {} && WithStatus(roster, Accepted) == {0, 1};
  }

  lemma FormedElsewhere(n: Net)
    requires 2 in n.proposals && n.proposals[2] == OPENED && n.next == 3 && n.conns == map[]
    ensures var n' := Step(n, RespondToProposal(2, 1, true, 0));
      n' == n.(next := n'.next, conns := n'.conns, proposals := n'.proposals) && n'.next == 4
  {
    FormedOf(n);
  }

  /** Two groups of one user, connected. */
  lemma TwoConnected() returns (es: seq<Event>)
    ensures var n := Run(EMPTY, es);
      && n.next == 4 && n.users == {0} && n.groups.Keys == {0, 1} && n.conns == map[3 := {0, 1}]
      && n.signals == map[] && n.chats == map[] && n.secrets == map[] && 0 in AdminsOf(n, 0)
  {
    var opening := TwoInvited();
    var e := RespondToProposal(2, 1, true, 0);
    RunOneMore(EMPTY, opening, e);
    FormedOf(Run(EMPTY, opening));
    FormedElsewhere(Run(EMPTY, opening));
    es := opening + [e];
  }

  // ---- The sweep after a departure ----

  lemma NobodyBlockedByAll(n: Net, c: ConnId, g: GroupId)
    requires Separated(n) && g in MembersOf(n, c)
    ensures !UnanimouslyBlocked(n, c, g)
  {
    if n.conns[c] - {g} != {} {
      var m :| m in n.conns[c] - {g};
      assert (m, g) !in n.blocks;
    }
  }

  /** Where connections are separated nobody is blocked by all the others, so the
      sweep after a departure removes no one. */
  lemma {:induction false} SweepFindsNobody(n: Net, c: ConnId, listed: seq<GroupId>)
    requires Separated(n)
    ensures SweepBlocked(n, c, listed) == n
    decreases |listed|
  {
    if listed != [] {
      if listed[0] in MembersOf(n, c) {
        NobodyBlockedByAll(n, c, listed[0]);
      }
      SweepFindsNobody(n, c, listed[1..]);
    }
  }

  /** The state the sweep goes on from after its first group. */
  function SweepOne(n: Net, c: ConnId, g: GroupId): Net {
    if UnanimouslyBlocked(n, c, g) then Step(n, LeaveConnection(c, g)) else n
  }

  lemma SweepGoesOn(n: Net, c: ConnId, listed: seq<GroupId>)
    requires listed != []
    ensures SweepBlocked(n, c, listed) == SweepBlocked(SweepOne(n, c, listed[0]), c, listed[1..])
  {
  }

  /** In any state at all, the sweep is a history of departures. */
  lemma {:induction false} SweepIsDepartures(n: Net, c: ConnId, listed: seq<GroupId>) returns (es: seq<Event>)
    ensures forall i :: 0 <= i < |es| ==> es[i].LeaveConnection? && es[i].connection == c && es[i].group in listed
    ensures SweepBlocked(n, c, listed) == Run(n, es)
    decreases |listed|
  {
    if listed == [] {
      es := [];
    } else {
      SweepGoesOn(n, c, listed);
      var n1 := SweepOne(n, c, listed[0]);
      var rest := SweepIsDepartures(n1, c, listed[1..]);
      es := rest;
      if UnanimouslyBlocked(n, c, listed[0]) {
        es := [LeaveConnection(c, listed[0])] + rest;
        assert es[1..] == rest;
      }
    }
  }

  // ---- Expansion rosters over a history ----

  /** What a response does to the row it answers. */
  ghost predicate EntryAnswered(before: Proposal, g: GroupId, accept: bool, after: Proposal) {
    && g in before.roster && before.roster[g] == Pending
    && after.roster == before.roster[g := Answer(accept)]
    && after.kind == before.kind
    && (before.kind.Expansion? ==> after.connection == before.connection)
  }

  lemma OpenAnswer(n: Net, p: PropId, g: GroupId, accept: bool, now: int)
    requires ResponseError(n, p, g, now).None? && !Finalizes(n, p, g, accept, now)
    ensures Respond(n, p, g, accept, now).Ok? && p in Respond(n, p, g, accept, now).value.proposals
    ensures EntryAnswered(n.proposals[p], g, accept, Respond(n, p, g, accept, now).value.proposals[p])
  {
  }

  lemma FormationAnswer(n: Net, p: PropId, g: GroupId, now: int)
    requires Finalizes(n, p, g, true, now) && n.proposals[p].kind.Formation?
    ensures Respond(n, p, g, true, now).Ok? && p in Respond(n, p, g, true, now).value.proposals
    ensures EntryAnswered(n.proposals[p], g, true, Respond(n, p, g, true, now).value.proposals[p])
  {
  }

  lemma ExpansionAnswer(n: Net, p: PropId, g: GroupId, now: int)
    requires Finalizes(n, p, g, true, now) && n.proposals[p].kind.Expansion?
    ensures Respond(n, p, g, true, now).Ok? ==>
      p in Respond(n, p, g, true, now).value.proposals
      && EntryAnswered(n.proposals[p], g, true, Respond(n, p, g, true, now).value.proposals[p])
  {
    var n1 := RecordResponse(n, p, g, true);
    if n1.proposals[p].connection.Some? {
      ExpansionTouchesNoProposal(n1, p, n1.proposals[p].connection.value);
    }
  }

  lemma ExpansionTouchesNoProposal(n: Net, p: PropId, c: ConnId)
    requires p in n.proposals
    ensures ExpandConnection(n, p, c).Ok? ==> ExpandConnection(n, p, c).value.proposals == n.proposals
  {
  }

  /** A response changes one entry of one roster, and neither the kind nor, on an
      expansion, the connection of a proposal. */
  lemma AnswerKeepsRoster(n: Net, p: PropId, g: GroupId, accept: bool, now: int)
    requires Respond(n, p, g, accept, now).Ok?
    ensures p in n.proposals && p in Respond(n, p, g, accept, now).value.proposals
    ensures EntryAnswered(n.proposals[p], g, accept, Respond(n, p, g, accept, now).value.proposals[p])
  {
    if !Finalizes(n, p, g, accept, now) {
      OpenAnswer(n, p, g, accept, now);
    } else if n.proposals[p].kind.Formation? {
      FormationAnswer(n, p, g, now);
    } else {
      ExpansionAnswer(n, p, g, now);
    }
  }

  /** While it is pending, everyone on proposal `p`'s roster but `target` is a
      member of connection `c`. */
  ghost predicate TargetOnly(n: Net, p: PropId, c: ConnId, target: GroupId) {
    && p < n.next
    && (p in n.proposals && n.proposals[p].status == Pending ==>
          && n.proposals[p].kind.Expansion? && n.proposals[p].connection == Some(c) && c in n.conns
          && n.proposals[p].roster.Keys - {target} <= n.conns[c])
  }

  lemma TargetOnlyEviction(n: Net, p: PropId, c: ConnId, target: GroupId, cs: set<ConnId>, g: GroupId)
    requires TargetOnly(n, p, c, target)
    ensures TargetOnly(Evicted(n, cs, g), p, c, target)
  {
  }

  lemma TargetOnlyOpening(n: Net, e: Event, p: PropId, c: ConnId, target: GroupId)
    requires TargetOnly(n, p, c, target)
    requires e.ProposeConnection? || e.InviteToConnection?
    ensures TargetOnly(Step(n, e), p, c, target)
  {
  }

  lemma TargetOnlyGrowth(n: Net, n': Net, p: PropId, c: ConnId, target: GroupId)
    requires TargetOnly(n, p, c, target) && n'.next >= n.next
    requires forall d :: d in n.conns ==> d in n'.conns && n.conns[d] <= n'.conns[d]
    requires p in n'.proposals && n'.proposals[p].status == Pending ==> p in n.proposals && n'.proposals[p] == n.proposals[p]
    ensures TargetOnly(n', p, c, target)
  {
  }

  lemma TargetOnlyOwnAnswer(n: Net, n': Net, p: PropId, c: ConnId, target: GroupId)
    requires p in n.proposals && n.proposals[p].status == Pending && TargetOnly(n, p, c, target) && Answered(n, p, n')
    requires n'.proposals[p].status == Pending ==>
      n'.proposals[p] == n.proposals[p].(roster := n'.proposals[p].roster) && n'.proposals[p].roster.Keys == n.proposals[p].roster.Keys
    ensures TargetOnly(n', p, c, target)
  {
  }

  lemma PendingAnswerKeeps(n: Net, p: PropId, g: GroupId, accept: bool, now: int)
    requires Respond(n, p, g, accept, now).Ok? && Respond(n, p, g, accept, now).value.proposals[p].status == Pending
    ensures p in n.proposals
    ensures var row := Respond(n, p, g, accept, now).value.proposals[p];
      row == n.proposals[p].(roster := row.roster) && row.roster.Keys == n.proposals[p].roster.Keys
  {
  }

  lemma AnsweredGrows(n: Net, e: Event, p: PropId, c: ConnId, target: GroupId, n': Net)
    requires e.RespondToProposal? && e.proposal != p && TargetOnly(n, p, c, target)
    requires e.proposal in n.proposals && Answered(n, e.proposal, n')
    ensures TargetOnly(n', p, c, target)
  {
    TargetOnlyGrowth(n, n', p, c, target);
  }

  lemma AnsweredIsPending(n: Net, p: PropId, g: GroupId, accept: bool, now: int)
    requires Respond(n, p, g, accept, now).Ok?
    ensures p in n.proposals && n.proposals[p].status == Pending
  {
  }

  lemma OwnAnswerKeeps(n: Net, p: PropId, g: GroupId, accept: bool, now: int, c: ConnId, target: GroupId)
    requires Sound(n) && TargetOnly(n, p, c, target) && Respond(n, p, g, accept, now).Ok?
    ensures TargetOnly(Respond(n, p, g, accept, now).value, p, c, target)
  {
    var n' := Respond(n, p, g, accept, now).value;
    RespondAnswers(n, p, g, accept, now);
    AnsweredIsPending(n, p, g, accept, now);
    if n'.proposals[p].status == Pending {
      PendingAnswerKeeps(n, p, g, accept, now);
    }
    TargetOnlyOwnAnswer(n, n', p, c, target);
  }

  lemma TargetOnlyAnswer(n: Net, e: Event, p: PropId, c: ConnId, target: GroupId)
    requires Sound(n) && TargetOnly(n, p, c, target) && e.RespondToProposal?
    ensures TargetOnly(Step(n, e), p, c, target)
  {
    if Outcome(n, e).Ok? {
      if e.proposal == p {
        OwnAnswerKeeps(n, p, e.group, e.accept, e.now, c, target);
      } else {
        RespondAnswers(n, e.proposal, e.group, e.accept, e.now);
        AnsweredIsPending(n, e.proposal, e.group, e.accept, e.now);
        AnsweredGrows(n, e, p, c, target, Step(n, e));
      }
    }
  }

  lemma TargetOnlyStep(n: Net, e: Event, p: PropId, c: ConnId, target: GroupId)
    requires Sound(n) && TargetOnly(n, p, c, target)
    ensures TargetOnly(Step(n, e), p, c, target)
  {
    if e.ProposeConnection? || e.InviteToConnection? {
      TargetOnlyOpening(n, e, p, c, target);
    } else if e.RespondToProposal? {
      TargetOnlyAnswer(n, e, p, c, target);
    } else if LeavesConnections(e) {
      ConnectionFrame(n, e);
    } else if Outcome(n, e).Ok? {
      if e.LeaveConnection? {
        RemovalIsEviction(n, e.connection, e.group);
        TargetOnlyEviction(n, p, c, target, {e.connection}, e.group);
      } else if e.BlockGroup? {
        BlockIsEviction(n, e.blocker, e.blocked);
        TargetOnlyEviction(n.(blocks := n.blocks + {(e.blocker, e.blocked)}), p, c, target,
                           SharedConnections(n, e.blocker, e.blocked), e.blocked);
      }
    }
  }

  lemma {:induction false} TargetOnlyThroughout(n: Net, es: seq<Event>, p: PropId, c: ConnId, target: GroupId)
    requires Sound(n) && TargetOnly(n, p, c, target)
    ensures TargetOnly(Run(n, es), p, c, target)
    decreases |es|
  {
    if es != [] {
      TargetOnlyStep(n, es[0], p, c, target);
      SoundStep(n, es[0]);
      TargetOnlyThroughout(Step(n, es[0]), es[1..], p, c, target);
    }
  }

  /** Whatever happens after an invitation, as long as its proposal is pending the
      connection exists and everyone on the roster but the invited group is still
      a member: departures and evictions delete pending proposals. */
  lemma InvitedGroupIsTheOnlyOutsider(n: Net, c: ConnId, proposer: GroupId, target: GroupId, now: int, es: seq<Event>)
    requires Sound(n) && Invite(n, c, proposer, target, now).Ok?
    ensures TargetOnly(Run(Invite(n, c, proposer, target, now).value, es), n.next, c, target)
  {
    InviteKeeps(n, c, proposer, target, now);
    TargetOnlyThroughout(Invite(n, c, proposer, target, now).value, es, n.next, c, target);
  }

  // ---- Proposals run forward only ----

  /** What proposals a step that removes members leaves. */
  lemma EvictionKeepsProposals(n: Net, cs: set<ConnId>, g: GroupId, p: PropId)
    ensures p in Evicted(n, cs, g).proposals ==> p in n.proposals && Evicted(n, cs, g).proposals[p] == n.proposals[p]
  {
  }

  lemma LeaveKeepsProposals(n: Net, c: ConnId, g: GroupId, p: PropId)
    requires Leave(n, c, g).Ok?
    ensures p in Leave(n, c, g).value.proposals ==> p in n.proposals && Leave(n, c, g).value.proposals[p] == n.proposals[p]
  {
    RemovalIsEviction(n, c, g);
    EvictionKeepsProposals(n, {c}, g, p);
  }

  lemma BlockKeepsProposals(n: Net, a: GroupId, b: GroupId, p: PropId)
    requires Block(n, a, b).Ok?
    ensures p in Block(n, a, b).value.proposals ==> p in n.proposals && Block(n, a, b).value.proposals[p] == n.proposals[p]
  {
    BlockIsEviction(n, a, b);
    EvictionKeepsProposals(n.(blocks := n.blocks + {(a, b)}), SharedConnections(n, a, b), b, p);
  }

  lemma NewProposalsAreNew(n: Net, e: Event, p: PropId)
    requires (e.ProposeConnection? || e.InviteToConnection?) && p < n.next
    ensures p in Step(n, e).proposals ==> p in n.proposals && Step(n, e).proposals[p] == n.proposals[p]
  {
  }

  /** No step but a response to `p` changes the row of proposal `p`; it may only
      delete it. */
  lemma OthersKeepProposal(n: Net, e: Event, p: PropId)
    requires Sound(n) && p < n.next && !(e.RespondToProposal? && e.proposal == p)
    ensures p in Step(n, e).proposals ==> p in n.proposals && Step(n, e).proposals[p] == n.proposals[p]
  {
    if e.ProposeConnection? || e.InviteToConnection? {
      NewProposalsAreNew(n, e, p);
    } else if LeavesConnections(e) {
      ConnectionFrame(n, e);
    } else if e.RespondToProposal? {
      ResponseFrame(n, e);
    } else if Outcome(n, e).Ok? {
      if e.LeaveConnection? {
        LeaveKeepsProposals(n, e.connection, e.group, p);
      } else if e.BlockGroup? {
        BlockKeepsProposals(n, e.blocker, e.blocked, p);
      }
    }
  }

  /** The statuses accepted and declined are final: the row never changes again;
      it can only disappear with its connection. */
  lemma StatusIsFinal(n: Net, e: Event, p: PropId)
    requires Sound(n) && p in n.proposals && n.proposals[p].status != Pending
    ensures p in Step(n, e).proposals ==> Step(n, e).proposals[p] == n.proposals[p]
  {
    if e.RespondToProposal? && e.proposal == p {
      assert Outcome(n, e) == Err(ProposalNotPending);
    } else {
      OthersKeepProposal(n, e, p);
    }
  }

  ghost function OpenEntries(n: Net, p: PropId): nat {
    if p in n.proposals then |WithStatus(n.proposals[p].roster, Pending)| else 0
  }

  lemma OneFewer<T>(s: set<T>, x: T)
    requires x in s
    ensures |s - {x}| == |s| - 1
  {
  }

  /** A response is taken exactly when the proposal exists, is pending and not past
      its deadline, and the group is on its roster and has not answered; each other
      case has its error. A response taken uses up exactly one pending entry. */
  lemma ResponseUsesOneEntry(n: Net, p: PropId, g: GroupId, accept: bool, now: int)
    requires Sound(n)
    ensures Respond(n, p, g, accept, now).Ok? <==>
      && p in n.proposals && n.proposals[p].status == Pending && now <= n.proposals[p].expiresAt
      && g in n.proposals[p].roster && n.proposals[p].roster[g] == Pending
    ensures Respond(n, p, g, accept, now).Err? ==>
      Respond(n, p, g, accept, now).error ==
        if p !in n.proposals then ProposalNotFound
        else if n.proposals[p].status != Pending || n.proposals[p].expiresAt < now then ProposalNotPending
        else if g !in n.proposals[p].roster then GroupNotInProposal
        else AlreadyResponded
    ensures Respond(n, p, g, accept, now).Ok? ==> OpenEntries(Respond(n, p, g, accept, now).value, p) == OpenEntries(n, p) - 1
  {
    if ResponseError(n, p, g, now).None? {
      var roster := n.proposals[p].roster;
      assert RosterFits(n, n.proposals[p]);
      if Finalizes(n, p, g, accept, now) && n.proposals[p].kind.Expansion? {
        FinalExpansion(n, p, g, now);
      }
      AnswerKeepsRoster(n, p, g, accept, now);
      OneMoreVote(roster, g, Answer(accept));
      OneFewer(WithStatus(roster, Pending), g);
    }
  }

  lemma StepKeepsIssued(n: Net, e: Event)
    requires Sound(n)
    ensures Step(n, e).next >= n.next
  {
    if LeavesConnections(e) {
      ConnectionFrame(n, e);
    } else if Outcome(n, e).Ok? {
      if e.RespondToProposal? {
        RespondAnswers(n, e.proposal, e.group, e.accept, e.now);
      } else if e.LeaveConnection? {
        RemovalIsEviction(n, e.connection, e.group);
      } else if e.BlockGroup? {
        BlockIsEviction(n, e.blocker, e.blocked);
      }
    }
  }

  /** The responses to `p` that succeed in a history. */
  ghost function Responses(n: Net, es: seq<Event>, p: PropId): nat
    decreases |es|
  {
    if es == [] then 0
    else (if es[0].RespondToProposal? && es[0].proposal == p && Outcome(n, es[0]).Ok? then 1 else 0)
         + Responses(Step(n, es[0]), es[1..], p)
  }

  /** Whatever else happens, a proposal takes no more responses than it has
      pending entries. */
  lemma {:induction false} ResponsesAreBounded(n: Net, es: seq<Event>, p: PropId)
    requires Sound(n) && p < n.next
    ensures Responses(n, es, p) <= OpenEntries(n, p)
    decreases |es|
  {
    if es != [] {
      var e := es[0];
      if e.RespondToProposal? && e.proposal == p {
        ResponseUsesOneEntry(n, p, e.group, e.accept, e.now);
      } else {
        OthersKeepProposal(n, e, p);
      }
      SoundStep(n, e);
      StepKeepsIssued(n, e);
      ResponsesAreBounded(Step(n, e), es[1..], p);
    }
  }
}
