// What holds in every state any sequence of transactions can reach.
module Invariants {
  import opened Prelude
  import opened Network
  import opened Eviction
  import G = Groups

  // ---- Foreign keys and fresh identifiers ----

  ghost predicate Referential(n: Net) {
    && (forall p :: p in n.proposals && n.proposals[p].connection.Some? ==> n.proposals[p].connection.value in n.conns)
    && (forall h :: h in n.chats ==> n.chats[h].connection in n.conns)
    && (forall sg :: sg in n.signals && n.signals[sg].owner.ByConnection? ==> n.signals[sg].owner.connection in n.conns)
    && (forall s :: s in n.secrets && n.secrets[s].owner.OfSignalGroup? ==> n.secrets[s].owner.signal in n.signals)
  }

  ghost predicate Issued(n: Net) {
    && (forall g :: g in n.groups ==> g < n.next)
    && (forall c :: c in n.conns ==> c < n.next)
    && (forall p :: p in n.proposals ==> p < n.next)
    && (forall h :: h in n.chats ==> h < n.next)
    && (forall sg :: sg in n.signals ==> sg < n.next)
    && (forall s :: s in n.secrets ==> s < n.next)
  }

  // ---- Connections and their proposals ----

  /** Every connection joins at least two groups. */
  ghost predicate Thick(n: Net) {
    forall c :: c in n.conns ==> |n.conns[c]| >= 2
  }

  /** A row still open holds no refusal; an accepted one holds only acceptances. */
  ghost predicate VotesFit(status: Status, roster: map<GroupId, Status>) {
    && (status == Pending ==> WithStatus(roster, Declined) == {})
    && (status == Accepted ==> WithStatus(roster, Accepted) == roster.Keys)
    && (status == Declined ==> WithStatus(roster, Declined) != {})
  }

  ghost predicate AtMostOneOutsider(roster: map<GroupId, Status>, members: set<GroupId>) {
    forall a, b :: a in roster && b in roster && a !in members && b !in members ==> a == b
  }

  /** A pending formation has its proposer's acceptance on record. A pending
      expansion belongs to a connection that exists, and at most one group on its
      roster, the invited one, is not a member. */
  ghost predicate RosterFits(n: Net, prop: Proposal) {
    && VotesFit(prop.status, prop.roster)
    && (prop.status == Pending && prop.kind.Formation? ==>
          prop.connection.None? && prop.proposer in prop.roster && prop.roster[prop.proposer] == Accepted)
    && (prop.status == Pending && prop.kind.Expansion? ==>
          prop.connection.Some? && prop.connection.value in n.conns
          && AtMostOneOutsider(prop.roster, n.conns[prop.connection.value]))
  }

  ghost predicate RostersFit(n: Net) {
    forall p :: p in n.proposals ==> RosterFits(n, n.proposals[p])
  }

  // ---- Chats ----

  ghost function ApprovedChats(n: Net, c: ConnId): set<ChatId> {
    set h | h in n.chats && n.chats[h].connection == c && n.chats[h].status == Accepted
  }

  /** A connection has as many signal groups as approved chat proposals. */
  ghost predicate SignalsMatchChats(n: Net) {
    forall c :: c in n.conns ==> |SignalsOf(n, c)| == |ApprovedChats(n, c)|
  }

  ghost predicate ChatVotesFit(n: Net) {
    forall h :: h in n.chats ==> VotesFit(n.chats[h].status, n.chats[h].votes)
  }

  ghost predicate Sound(n: Net) {
    Referential(n) && Issued(n) && Thick(n) && RostersFit(n) && SignalsMatchChats(n) && ChatVotesFit(n)
  }

  // ---- Each kind of step keeps them ----

  lemma OneMoreVote(roster: map<GroupId, Status>, g: GroupId, answer: Status)
    requires g in roster && roster[g] == Pending && answer != Pending
    ensures WithStatus(roster[g := answer], answer) == WithStatus(roster, answer) + {g}
    ensures WithStatus(roster[g := answer], Pending) == WithStatus(roster, Pending) - {g}
    ensures forall st :: st != Pending && st != answer ==> WithStatus(roster[g := answer], st) == WithStatus(roster, st)
  {
  }

  /** A roster with an acceptance added, nobody refusing, is either still open or
      accepted by all. */
  lemma AcceptanceFits(roster: map<GroupId, Status>, g: GroupId)
    requires g in roster && roster[g] == Pending && WithStatus(roster, Declined) == {}
    ensures WithStatus(roster[g := Accepted], Declined) == {}
    ensures WithStatus(roster[g := Accepted], Pending) == {} ==> WithStatus(roster[g := Accepted], Accepted) == roster.Keys
  {
    var after := roster[g := Accepted];
    forall x | x in after
      ensures after[x] != Declined
    {
      assert roster[x] == Declined ==> x in WithStatus(roster, Declined);
    }
    if WithStatus(after, Pending) == {} {
      forall x | x in after
        ensures x in WithStatus(after, Accepted)
      {
        assert after[x] == Pending ==> x in WithStatus(after, Pending);
      }
    }
  }

  lemma RefusalFits(roster: map<GroupId, Status>, g: GroupId)
    requires g in roster
    ensures g in WithStatus(roster[g := Declined], Declined)
  {
  }

  lemma TwoMembers(s: set<GroupId>, a: GroupId, b: GroupId)
    requires a in s && b in s && a != b
    ensures |s| >= 2
  {
    SubsetSize({a, b}, s);
  }

  lemma {:induction false} AdmitGrows(members: set<GroupId>, blocks: set<(GroupId, GroupId)>, newcomers: seq<GroupId>)
    ensures members <= Admit(members, blocks, newcomers)
    ensures forall g :: g in Admit(members, blocks, newcomers) ==> g in members || g in newcomers
    decreases |newcomers|
  {
    if newcomers != [] {
      AdmitGrows(if BlockedWithAny(blocks, newcomers[0], members) then members else members + {newcomers[0]}, blocks, newcomers[1..]);
    }
  }

  /** Growing connections keeps every pending expansion's roster in place. */
  lemma RosterFitsGrowth(n: Net, n': Net, prop: Proposal)
    requires RosterFits(n, prop)
    requires forall c :: c in n.conns ==> c in n'.conns && n.conns[c] <= n'.conns[c]
    ensures RosterFits(n', prop)
  {
  }

  /** The chat tables and the invariants on them do not depend on the others. */
  lemma ChatTablesKeep(n: Net, n': Net)
    requires Sound(n) && n'.chats == n.chats && n'.signals.Keys >= n.signals.Keys
    requires forall sg :: sg in n'.signals ==>
      (if sg in n.signals then n'.signals[sg].owner == n.signals[sg].owner else !n'.signals[sg].owner.ByConnection?)
    ensures SignalsMatchChats(n') && ChatVotesFit(n')
  {
    forall c | c in n'.conns
      ensures |SignalsOf(n', c)| == |ApprovedChats(n', c)|
    {
      SameSignals(n, n', c);
      assert ApprovedChats(n', c) == ApprovedChats(n, c);
      if c !in n.conns {
        assert SignalsOf(n, c) == {};
        assert ApprovedChats(n, c) == {};
      }
    }
  }

  lemma SameSignals(n: Net, n': Net, c: ConnId)
    requires n'.signals.Keys >= n.signals.Keys
    requires forall sg :: sg in n'.signals ==>
      (if sg in n.signals then n'.signals[sg].owner == n.signals[sg].owner else !n'.signals[sg].owner.ByConnection?)
    ensures SignalsOf(n', c) == SignalsOf(n, c)
  {
  }

  /** One proposal more, whose roster fits, keeps everything. */
  lemma NewProposalKeeps(n: Net, prop: Proposal)
    requires Sound(n) && RosterFits(n, prop)
    requires prop.connection.Some? ==> prop.connection.value in n.conns
    ensures Sound(n.(next := n.next + 1, proposals := n.proposals[n.next := prop]))
  {
    var n' := n.(next := n.next + 1, proposals := n.proposals[n.next := prop]);
    ChatTablesKeep(n, n');
    forall p | p in n'.proposals
      ensures RosterFits(n', n'.proposals[p])
    {
      RosterFitsGrowth(n, n', n'.proposals[p]);
    }
  }

  lemma ProposeKeeps(n: Net, g: GroupId, targets: seq<GroupId>, now: int)
    requires Sound(n) && Propose(n, g, targets, now).Ok?
    ensures Sound(Propose(n, g, targets, now).value)
  {
    NewProposalKeeps(n, Proposal(Formation, None, g, Pending, FormationRoster(g, targets), now + PROPOSAL_LIFETIME));
  }

  lemma InviteKeeps(n: Net, c: ConnId, g: GroupId, target: GroupId, now: int)
    requires Sound(n) && Invite(n, c, g, target, now).Ok?
    ensures Sound(Invite(n, c, g, target, now).value)
  {
    NewProposalKeeps(n, Proposal(Expansion, Some(c), g, Pending, ExpansionRoster(n.conns[c], g, target), now + PROPOSAL_LIFETIME));
  }

  /** What a response to `p` may do: connections only grow, at most one is
      created, and no row but the answered proposal's changes. */
  ghost predicate Answered(n: Net, p: PropId, n': Net)
    requires p in n.proposals
  {
    && n' == n.(next := n'.next, conns := n'.conns, proposals := n'.proposals)
    && n'.next >= n.next
    && (forall c :: c in n.conns ==> c in n'.conns && n.conns[c] <= n'.conns[c])
    && (forall c :: c in n'.conns && c !in n.conns ==> c == n.next < n'.next && |n'.conns[c]| >= 2)
    && p in n'.proposals && n'.proposals == n.proposals[p := n'.proposals[p]]
    && RosterFits(n', n'.proposals[p])
    && (n'.proposals[p].connection.Some? ==> n'.proposals[p].connection.value in n'.conns)
  }

  ghost predicate MayAnswer(n: Net, p: PropId, g: GroupId, now: int) {
    && ResponseError(n, p, g, now).None?
    && RosterFits(n, n.proposals[p])
    && (forall c :: c in n.conns ==> c < n.next)
    && (n.proposals[p].connection.Some? ==> n.proposals[p].connection.value in n.conns)
  }

  lemma RespondOpen(n: Net, p: PropId, g: GroupId, accept: bool, now: int)
    requires MayAnswer(n, p, g, now)
    requires !accept || WithStatus(n.proposals[p].roster[g := Accepted], Pending) != {}
    ensures Answered(n, p, Respond(n, p, g, accept, now).value)
  {
    if accept {
      AcceptanceFits(n.proposals[p].roster, g);
    } else {
      RefusalFits(n.proposals[p].roster, g);
    }
  }

  lemma RespondForms(n: Net, p: PropId, g: GroupId, now: int)
    requires MayAnswer(n, p, g, now)
    requires WithStatus(n.proposals[p].roster[g := Accepted], Pending) == {} && n.proposals[p].kind.Formation?
    ensures Answered(n, p, Respond(n, p, g, true, now).value)
    ensures Respond(n, p, g, true, now).value.conns == n.conns[n.next := n.proposals[p].roster.Keys]
  {
    var prop := n.proposals[p];
    var roster := prop.roster[g := Accepted];
    AcceptanceFits(prop.roster, g);
    TwoMembers(prop.roster.Keys, prop.proposer, g);
    var n' := Respond(n, p, g, true, now).value;
    assert n'.proposals[p] == prop.(roster := roster, connection := Some(n.next), status := Accepted);
    assert n'.proposals == n.proposals[p := n'.proposals[p]];
    assert n'.conns == n.conns[n.next := prop.roster.Keys];
  }

  lemma RespondExpands(n: Net, p: PropId, g: GroupId, now: int)
    requires MayAnswer(n, p, g, now)
    requires WithStatus(n.proposals[p].roster[g := Accepted], Pending) == {} && n.proposals[p].kind.Expansion?
    ensures Respond(n, p, g, true, now).Ok?
    ensures Answered(n, p, Respond(n, p, g, true, now).value)
    ensures var c := n.proposals[p].connection.value;
      Respond(n, p, g, true, now).value.conns
        == n.conns[c := Admit(n.conns[c], n.blocks, RowOrder(n.proposals[p].roster.Keys - n.conns[c]))]
  {
    var prop := n.proposals[p];
    var roster := prop.roster[g := Accepted];
    AcceptanceFits(prop.roster, g);
    var c := prop.connection.value;
    assert Newcomers(roster, n.conns[c]) == prop.roster.Keys - n.conns[c];
    AdmitGrows(n.conns[c], n.blocks, RowOrder(prop.roster.Keys - n.conns[c]));
    var n' := Respond(n, p, g, true, now).value;
    assert n'.proposals[p] == prop.(roster := roster, status := Accepted);
    assert n'.proposals == n.proposals[p := n'.proposals[p]];
  }

  lemma RespondAnswers(n: Net, p: PropId, g: GroupId, accept: bool, now: int)
    requires Sound(n) && Respond(n, p, g, accept, now).Ok?
    ensures MayAnswer(n, p, g, now)
    ensures Answered(n, p, Respond(n, p, g, accept, now).value)
  {
    assert RosterFits(n, n.proposals[p]);
    if !accept || WithStatus(n.proposals[p].roster[g := Accepted], Pending) != {} {
      RespondOpen(n, p, g, accept, now);
    } else if n.proposals[p].kind.Formation? {
      RespondForms(n, p, g, now);
    } else {
      RespondExpands(n, p, g, now);
    }
  }

  lemma AnsweredKeeps(n: Net, p: PropId, n': Net)
    requires Sound(n) && p in n.proposals && Answered(n, p, n')
    ensures Sound(n')
  {
    ChatTablesKeep(n, n');
    forall q | q in n'.proposals
      ensures RosterFits(n', n'.proposals[q])
    {
      if q != p {
        RosterFitsGrowth(n, n', n.proposals[q]);
      }
    }
    forall c | c in n'.conns
      ensures |n'.conns[c]| >= 2
    {
      if c in n.conns {
        SubsetSize(n.conns[c], n'.conns[c]);
      }
    }
  }

  lemma EvictionKeepsRows(n: Net, cs: set<ConnId>, g: GroupId, n': Net)
    requires Referential(n) && Issued(n) && n' == Evicted(n, cs, g)
    ensures Issued(n')
    ensures forall p :: p in n'.proposals && n'.proposals[p].connection.Some? ==> n'.proposals[p].connection.value in n'.conns
    ensures forall h :: h in n'.chats ==> n'.chats[h].connection in n'.conns
    ensures forall sg :: sg in n'.signals && n'.signals[sg].owner.ByConnection? ==> n'.signals[sg].owner.connection in n'.conns
  {
  }

  lemma EvictionKeepsOwners(n: Net, cs: set<ConnId>, g: GroupId, n': Net)
    requires Referential(n) && n' == Evicted(n, cs, g)
    ensures forall s :: s in n'.secrets && n'.secrets[s].owner.OfSignalGroup? ==> n'.secrets[s].owner.signal in n'.signals
  {
    forall s | s in n'.secrets && n'.secrets[s].owner.OfSignalGroup?
      ensures n'.secrets[s].owner.signal in n'.signals
    {
      assert n'.secrets[s].owner == n.secrets[s].owner;
      assert ConnectionOf(n, n.secrets[s]) == OwnerConnection(n.signals[n.secrets[s].owner.signal].owner);
    }
  }

  lemma EvictionKeepsThick(n: Net, cs: set<ConnId>, g: GroupId, n': Net)
    requires Thick(n) && n' == Evicted(n, cs, g)
    ensures Thick(n')
  {
    forall c | c in n'.conns
      ensures |n'.conns[c]| >= 2
    {
      assert c !in Dissolved(n, cs, g);
    }
  }

  lemma EvictionKeepsRosters(n: Net, cs: set<ConnId>, g: GroupId, n': Net)
    requires Sound(n) && n' == Evicted(n, cs, g)
    ensures RostersFit(n')
  {
    forall p | p in n'.proposals
      ensures RosterFits(n', n'.proposals[p])
    {
      assert RosterFits(n, n.proposals[p]);
      assert n'.proposals[p] == n.proposals[p];
    }
  }

  lemma EvictionKeepsCounts(n: Net, cs: set<ConnId>, g: GroupId, n': Net)
    requires Sound(n) && n' == Evicted(n, cs, g)
    ensures SignalsMatchChats(n')
  {
    forall c | c in n'.conns
      ensures |SignalsOf(n', c)| == |ApprovedChats(n', c)|
    {
      assert c in n.conns;
      assert SignalsOf(n', c) == SignalsOf(n, c);
      assert ApprovedChats(n', c) == ApprovedChats(n, c);
    }
  }

  lemma EvictionKeeps(n: Net, cs: set<ConnId>, g: GroupId)
    requires Sound(n)
    ensures Sound(Evicted(n, cs, g))
  {
    var n' := Evicted(n, cs, g);
    EvictionKeepsRows(n, cs, g, n');
    EvictionKeepsOwners(n, cs, g, n');
    EvictionKeepsThick(n, cs, g, n');
    EvictionKeepsRosters(n, cs, g, n');
    EvictionKeepsCounts(n, cs, g, n');
  }

  lemma LeaveKeeps(n: Net, c: ConnId, g: GroupId)
    requires Sound(n) && Leave(n, c, g).Ok?
    ensures Sound(Leave(n, c, g).value)
  {
    RemovalIsEviction(n, c, g);
    EvictionKeeps(n, {c}, g);
  }

  lemma BlockKeeps(n: Net, a: GroupId, b: GroupId)
    requires Sound(n) && Block(n, a, b).Ok?
    ensures Sound(Block(n, a, b).value)
  {
    BlockIsEviction(n, a, b);
    var n1 := n.(blocks := n.blocks + {(a, b)});
    SameTables(n, n1);
    EvictionKeeps(n1, SharedConnections(n, a, b), b);
  }

  /** The invariants read only these tables. */
  lemma SameTables(n: Net, n': Net)
    requires Sound(n)
    requires n'.next >= n.next && n'.conns == n.conns && n'.proposals == n.proposals && n'.chats == n.chats
    requires n'.signals.Keys >= n.signals.Keys
    requires forall sg :: sg in n'.signals ==> sg < n'.next
    requires forall sg :: sg in n'.signals ==>
      (if sg in n.signals then n'.signals[sg].owner == n.signals[sg].owner else !n'.signals[sg].owner.ByConnection?)
    requires forall g :: g in n'.groups ==> g < n'.next
    requires forall s :: s in n'.secrets ==> s < n'.next && (n'.secrets[s].owner.OfSignalGroup? ==> n'.secrets[s].owner.signal in n'.signals)
    ensures Sound(n')
  {
    ChatTablesKeep(n, n');
    forall p | p in n'.proposals
      ensures RosterFits(n', n'.proposals[p])
    {
      RosterFitsGrowth(n, n', n.proposals[p]);
    }
  }

  lemma OneMore<T>(s: set<T>, x: T)
    requires x !in s
    ensures |s + {x}| == |s| + 1
  {
  }

  /** In a reachable state a chat proposal is never approved on the spot: its
      connection has another group, whose vote is pending. */
  lemma ChatOpensPending(n: Net, c: ConnId, g: GroupId, req: ChatRequest, admin: Option<UserId>, now: int)
    requires Sound(n) && ProposeChat(n, c, g, req, admin, now).Ok?
    ensures var n' := ProposeChat(n, c, g, req, admin, now).value;
      && n' == n.(next := n.next + 1, chats := n.chats[n.next := n'.chats[n.next]])
      && n'.chats[n.next].connection == c
      && n'.chats[n.next].status == Pending && WithStatus(n'.chats[n.next].votes, Pending) == n.conns[c] - {g} != {}
      && WithStatus(n'.chats[n.next].votes, Declined) == {}
  {
    assert |n.conns[c] - {g}| == |n.conns[c]| - 1;
  }

  /** Replacing or adding one chat row, with one signal group more when it turns
      approved, keeps the counts in step. */
  lemma ChatRowKeepsCounts(n: Net, h: ChatId, row: Chat, n': Net)
    requires SignalsMatchChats(n) && n'.conns == n.conns && n'.chats == n.chats[h := row] && n.next !in n.signals
    requires h in n.chats ==> n.chats[h].connection == row.connection && n.chats[h].status != Accepted
    requires if row.status == Accepted
             then n'.signals == n.signals[n.next := SignalGroup(ByConnection(row.connection), true)]
             else n'.signals == n.signals
    ensures SignalsMatchChats(n')
  {
    forall d | d in n'.conns
      ensures |SignalsOf(n', d)| == |ApprovedChats(n', d)|
    {
      if d == row.connection && row.status == Accepted {
        OneSignalMore(n, n', d);
        OneChatMore(n, h, row, n', d);
        OneMore(SignalsOf(n, d), n.next);
        OneMore(ApprovedChats(n, d), h);
      } else {
        OtherChats(n, h, row, n', d);
      }
    }
  }

  lemma OneSignalMore(n: Net, n': Net, c: ConnId)
    requires n'.signals == n.signals[n.next := SignalGroup(ByConnection(c), true)]
    ensures SignalsOf(n', c) == SignalsOf(n, c) + {n.next}
  {
  }

  lemma OneChatMore(n: Net, h: ChatId, row: Chat, n': Net, c: ConnId)
    requires n'.chats == n.chats[h := row] && row.connection == c && row.status == Accepted
    ensures ApprovedChats(n', c) == ApprovedChats(n, c) + {h}
  {
  }

  lemma OtherChats(n: Net, h: ChatId, row: Chat, n': Net, c: ConnId)
    requires n'.chats == n.chats[h := row] && (row.connection != c || row.status != Accepted)
    requires h in n.chats ==> n.chats[h].connection == row.connection && n.chats[h].status != Accepted
    requires n'.signals == n.signals || (n.next !in n.signals && row.connection != c
               && n'.signals == n.signals[n.next := SignalGroup(ByConnection(row.connection), true)])
    ensures ApprovedChats(n', c) == ApprovedChats(n, c)
    ensures SignalsOf(n', c) == SignalsOf(n, c)
  {
  }

  lemma ProposeChatKeeps(n: Net, c: ConnId, g: GroupId, req: ChatRequest, admin: Option<UserId>, now: int)
    requires Sound(n) && ProposeChat(n, c, g, req, admin, now).Ok?
    ensures Sound(ProposeChat(n, c, g, req, admin, now).value)
  {
    var n' := ProposeChat(n, c, g, req, admin, now).value;
    ChatOpensPending(n, c, g, req, admin, now);
    ChatRowKeepsCounts(n, n.next, n'.chats[n.next], n');
    forall p | p in n'.proposals
      ensures RosterFits(n', n'.proposals[p])
    {
      RosterFitsGrowth(n, n', n.proposals[p]);
    }
  }

  /** What a vote on chat `h` may do to the tables. */
  ghost predicate Voted(n: Net, h: ChatId, n': Net)
    requires h in n.chats
  {
    && h in n'.chats
    && n' == n.(next := n'.next, chats := n.chats[h := n'.chats[h]], signals := n'.signals, secrets := n'.secrets)
    && VotesFit(n'.chats[h].status, n'.chats[h].votes)
    && n'.chats[h].connection == n.chats[h].connection
    && (if n'.chats[h].status == Accepted
        then n'.signals == n.signals[n.next := SignalGroup(ByConnection(n.chats[h].connection), true)] && n.next < n'.next
        else n'.signals == n.signals && n'.secrets == n.secrets && n'.next == n.next)
    && (forall s :: s in n.secrets ==> s in n'.secrets && n'.secrets[s] == n.secrets[s])
    && (forall s :: s in n'.secrets && s !in n.secrets ==> n.next < s < n'.next && n'.secrets[s].owner == OfSignalGroup(n.next))
  }

  lemma RefusalVotes(n: Net, h: ChatId, g: GroupId, now: int)
    requires VoteError(n, h, g, now).None?
    ensures Voted(n, h, Vote(n, h, g, false, now).value)
  {
    RefusalFits(n.chats[h].votes, g);
  }

  lemma ApprovalVotes(n: Net, h: ChatId, g: GroupId, now: int)
    requires VoteError(n, h, g, now).None? && VotesFit(n.chats[h].status, n.chats[h].votes)
    requires Vote(n, h, g, true, now).Ok? && forall s :: s in n.secrets ==> s < n.next
    ensures Voted(n, h, Vote(n, h, g, true, now).value)
  {
    var n' := Vote(n, h, g, true, now).value;
    AcceptanceFits(n.chats[h].votes, g);
    assert n'.chats == n.chats[h := n'.chats[h]];
  }

  lemma VoteVotes(n: Net, h: ChatId, g: GroupId, approve: bool, now: int)
    requires VoteError(n, h, g, now).None? && VotesFit(n.chats[h].status, n.chats[h].votes)
    requires Vote(n, h, g, approve, now).Ok? && forall s :: s in n.secrets ==> s < n.next
    ensures Voted(n, h, Vote(n, h, g, approve, now).value)
  {
    if approve {
      ApprovalVotes(n, h, g, now);
    } else {
      RefusalVotes(n, h, g, now);
    }
  }

  lemma VotedKeepsRows(n: Net, h: ChatId, n': Net)
    requires Referential(n) && Issued(n) && h in n.chats && Voted(n, h, n')
    ensures Referential(n') && Issued(n')
  {
  }

  lemma VotedKeeps(n: Net, h: ChatId, n': Net)
    requires Sound(n) && h in n.chats && n.chats[h].status != Accepted && Voted(n, h, n')
    ensures Sound(n')
  {
    VotedKeepsRows(n, h, n');
    ChatRowKeepsCounts(n, h, n'.chats[h], n');
    forall p | p in n'.proposals
      ensures RosterFits(n', n'.proposals[p])
    {
      RosterFitsGrowth(n, n', n.proposals[p]);
    }
  }

  /** Key rows are rewritten in place; no secret appears or changes owner. */
  ghost predicate KeysRewritten(n: Net, n': Net) {
    && n' == n.(secrets := n'.secrets) && n'.secrets.Keys == n.secrets.Keys
    && (forall s :: s in n.secrets ==> n'.secrets[s] == n.secrets[s].(keys := n'.secrets[s].keys))
    && (forall s :: s in n.secrets ==> n'.secrets[s].keys.Keys == n.secrets[s].keys.Keys)
  }

  lemma SubmitRekeyRewrites(n: Net, s: SecretId, target: UserId, dek: string)
    requires RekeyWaits(n, s, target)
    ensures KeysRewritten(n, SubmitRekey(n, s, target, dek))
  {
  }

  lemma RewritesChain(n: Net, n1: Net, n2: Net)
    requires KeysRewritten(n, n1) && KeysRewritten(n1, n2)
    ensures KeysRewritten(n, n2)
  {
  }

  lemma {:induction false} RekeysTouchKeysOnly(n: Net, allowed: set<(SecretId, UserId)>, entries: seq<RekeyEntry>)
    ensures KeysRewritten(n, SubmitRekeys(n, allowed, entries))
  {
    if entries != [] {
      var n1 := SubmitRekeys(n, allowed, entries[..|entries| - 1]);
      var e := entries[|entries| - 1];
      RekeysTouchKeysOnly(n, allowed, entries[..|entries| - 1]);
      if Complete(e) && (e.secret.value, e.target.value) in allowed && RekeyWaits(n1, e.secret.value, e.target.value) {
        SubmitRekeyRewrites(n1, e.secret.value, e.target.value, e.dek);
        RewritesChain(n, n1, SubmitRekey(n1, e.secret.value, e.target.value, e.dek));
      }
    }
  }

  /** Only key rows inside secrets and rows inside groups differ. */
  ghost predicate RowsRewritten(n: Net, n': Net) {
    && n' == n.(users := n'.users, groups := n'.groups, chats := n'.chats, secrets := n'.secrets)
    && n'.groups.Keys == n.groups.Keys && n'.secrets.Keys == n.secrets.Keys && n'.chats.Keys == n.chats.Keys
    && (forall s :: s in n.secrets ==> n'.secrets[s] == n.secrets[s].(keys := n'.secrets[s].keys))
    && (forall h :: h in n.chats ==> n'.chats[h] == n.chats[h].(proposerUser := n'.chats[h].proposerUser))
  }

  lemma RevocationRewrites(n: Net, g: GroupId, user: UserId)
    ensures RowsRewritten(n, RevokeForUser(n, g, user))
  {
  }

  lemma GroupEventRewrites(n: Net, g: GroupId, e: G.Event)
    requires InGroup(n, g, e).Ok?
    ensures RowsRewritten(n, InGroup(n, g, e).value)
  {
    if g in n.groups {
      var n1 := n.(groups := n.groups[g := G.Outcome(n.groups[g], e).value]);
      match e {
        case Leave(u) => RevocationRewrites(n1, g, u);
        case Ban(u) => RevocationRewrites(n1, g, u);
        case _ =>
      }
    }
  }

  lemma DeletionRewrites(n: Net, u: UserId)
    requires DeleteUser(n, u).Ok?
    ensures RowsRewritten(n, DeleteUser(n, u).value)
  {
  }

  lemma RewritingKeeps(n: Net, n': Net)
    requires Sound(n) && RowsRewritten(n, n')
    ensures Sound(n')
  {
    forall c | c in n'.conns
      ensures |SignalsOf(n', c)| == |ApprovedChats(n', c)|
    {
      assert ApprovedChats(n', c) == ApprovedChats(n, c);
      assert SignalsOf(n', c) == SignalsOf(n, c);
    }
    forall p | p in n'.proposals
      ensures RosterFits(n', n'.proposals[p])
    {
      RosterFitsGrowth(n, n', n.proposals[p]);
    }
  }

  lemma RekeyKeeps(n: Net, caller: UserId, publicKeys: set<UserId>, entries: seq<RekeyEntry>)
    requires Sound(n)
    ensures Sound(SubmitRekeys(n, PendingRekeys(n, caller, publicKeys), entries))
  {
    RekeysTouchKeysOnly(n, PendingRekeys(n, caller, publicKeys), entries);
    SameTables(n, SubmitRekeys(n, PendingRekeys(n, caller, publicKeys), entries));
  }

  lemma OtherStepKeeps(n: Net, e: Event)
    requires Sound(n) && Outcome(n, e).Ok?
    requires e.FoundGroup? || e.UnblockGroup? || e.AddUser?
    ensures Sound(Step(n, e))
  {
    SameTables(n, Step(n, e));
  }

  lemma SignalsKeep(n: Net, n': Net)
    requires Sound(n) && n' == n.(next := n'.next, signals := n'.signals) && n'.next >= n.next
    requires n'.signals.Keys >= n.signals.Keys && forall sg :: sg in n'.signals ==> sg < n'.next
    requires forall sg :: sg in n'.signals ==>
      (if sg in n.signals then n'.signals[sg].owner == n.signals[sg].owner else !n'.signals[sg].owner.ByConnection?)
    ensures Sound(n')
  {
    SameTables(n, n');
  }

  lemma AddGroupSignalKeeps(n: Net, e: Event)
    requires Sound(n) && Outcome(n, e).Ok? && e.AddGroupSignal?
    ensures Sound(Step(n, e))
  {
    SignalsKeep(n, Step(n, e));
  }

  lemma OneRowKeeps(n: Net, sg: SignalId, row: SignalGroup)
    requires Sound(n) && sg in n.signals && row.owner == n.signals[sg].owner
    ensures Sound(n.(signals := n.signals[sg := row]))
  {
    SignalsKeep(n, n.(signals := n.signals[sg := row]));
  }

  lemma DeactivationKeeps(n: Net, e: Event)
    requires Sound(n) && e.DeactivateSignal?
    ensures Sound(Step(n, e))
  {
    if e.signal in n.signals {
      OneRowKeeps(n, e.signal, n.signals[e.signal].(active := false));
    }
  }

  lemma AddSecretKeeps(n: Net, e: Event)
    requires Sound(n) && Outcome(n, e).Ok? && e.AddSecret?
    ensures Sound(Step(n, e))
  {
    SameTables(n, Step(n, e));
  }

  lemma RewriteKeeps(n: Net, e: Event)
    requires Sound(n) && Outcome(n, e).Ok? && (e.FlagRekey? || e.RotateSecret?)
    ensures Sound(Step(n, e))
  {
    SameTables(n, Step(n, e));
  }

  predicate OnConnections(e: Event) {
    e.ProposeConnection? || e.RespondToProposal? || e.InviteToConnection? || e.LeaveConnection? || e.BlockGroup?
  }

  lemma ConnectionStepKeeps(n: Net, e: Event)
    requires Sound(n) && Outcome(n, e).Ok? && OnConnections(e)
    ensures Sound(Step(n, e))
  {
    match e
    case ProposeConnection(g, ts, now) => ProposeKeeps(n, g, ts, now);
    case RespondToProposal(p, g, accept, now) =>
      RespondAnswers(n, p, g, accept, now);
      AnsweredKeeps(n, p, Step(n, e));
    case InviteToConnection(c, g, t, now) => InviteKeeps(n, c, g, t, now);
    case LeaveConnection(c, g) => LeaveKeeps(n, c, g);
    case BlockGroup(a, b) => BlockKeeps(n, a, b);
  }

  lemma RowStepKeeps(n: Net, e: Event)
    requires Sound(n) && Outcome(n, e).Ok? && (e.GroupEvent? || e.RemoveUser?)
    ensures Sound(Step(n, e))
  {
    if e.GroupEvent? {
      GroupEventRewrites(n, e.group, e.event);
    } else {
      DeletionRewrites(n, e.user);
    }
    RewritingKeeps(n, Step(n, e));
  }

  lemma VoteStepKeeps(n: Net, e: Event)
    requires Sound(n) && Outcome(n, e).Ok? && e.VoteOnChat?
    ensures Sound(Step(n, e))
  {
    VoteVotes(n, e.chat, e.group, e.approve, e.now);
    VotedKeeps(n, e.chat, Step(n, e));
  }

  lemma SoundStep(n: Net, e: Event)
    requires Sound(n)
    ensures Sound(Step(n, e))
  {
    if Outcome(n, e).Ok? {
      match e
      case ProposeSignalChat(c, g, req, admin, now) => ProposeChatKeeps(n, c, g, req, admin, now);
      case VoteOnChat(_, _, _, _) => VoteStepKeeps(n, e);
      case GroupEvent(_, _) => RowStepKeeps(n, e);
      case RemoveUser(_) => RowStepKeeps(n, e);
      case Rekey(caller, publicKeys, entries) => RekeyKeeps(n, caller, publicKeys, entries);
      case AddSecret(_, _, _, _, _) => AddSecretKeeps(n, e);
      case FlagRekey(_) => RewriteKeeps(n, e);
      case RotateSecret(_, _, _, _, _) => RewriteKeeps(n, e);
      case AddGroupSignal(_) => AddGroupSignalKeeps(n, e);
      case DeactivateSignal(_) => DeactivationKeeps(n, e);
      case FoundGroup(_, _) => OtherStepKeeps(n, e);
      case UnblockGroup(_, _) => OtherStepKeeps(n, e);
      case AddUser(_) => OtherStepKeeps(n, e);
      case _ => ConnectionStepKeeps(n, e);
    }
  }

  /** Every state any history reaches from a sound one is sound. */
  lemma {:induction false} SoundThroughout(n: Net, es: seq<Event>)
    requires Sound(n)
    ensures Sound(Run(n, es))
    decreases |es|
  {
    if es != [] {
      SoundStep(n, es[0]);
      SoundThroughout(Step(n, es[0]), es[1..]);
    }
  }

  /** Running a history in two parts is running it whole. */
  lemma {:induction false} RunAppend(n: Net, before: seq<Event>, after: seq<Event>)
    ensures Run(n, before + after) == Run(Run(n, before), after)
    decreases |before|
  {
    if before == [] {
      assert before + after == after;
    } else {
      assert (before + after)[1..] == before[1..] + after;
      RunAppend(Step(n, before[0]), before[1..], after);
    }
  }

  lemma RunOne(n: Net, e: Event)
    ensures Run(n, [e]) == Step(n, e)
  {
    assert [e][1..] == [];
    assert Run(Step(n, e), []) == Step(n, e);
  }

  lemma RunOneMore(n: Net, es: seq<Event>, e: Event)
    ensures Run(n, es + [e]) == Step(Run(n, es), e)
  {
    RunAppend(n, es, [e]);
    RunOne(Run(n, es), e);
  }

  lemma EmptyIsSound()
    ensures Sound(EMPTY)
  {
  }

  /** So every state reachable from the empty database is. */
  lemma ReachableIsSound(es: seq<Event>)
    ensures Sound(Run(EMPTY, es))
  {
    EmptyIsSound();
    SoundThroughout(EMPTY, es);
  }
}
