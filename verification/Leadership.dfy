// Groups without an admin among the other tables: they never get one, and what
// waits for their answer waits forever.
module Leadership {
  import opened Prelude
  import opened Network
  import opened Eviction
  import opened Invariants
  import opened Consensus
  import opened Custody
  import opened Chats
  import G = Groups
  import H = GroupHistory

  /** The group exists and nobody in it is an admin or could become one. */
  ghost predicate WithoutAdmin(n: Net, g: GroupId) {
    g in n.groups && H.Leaderless(n.groups[g])
  }

  lemma GroupEventLeavesLeaderless(n: Net, h: GroupId, e: G.Event, g: GroupId)
    requires InGroup(n, h, e).Ok? && WithoutAdmin(n, g)
    ensures WithoutAdmin(InGroup(n, h, e).value, g)
  {
    if h == g {
      H.LeaderlessStep(n.groups[g], e);
    }
  }

  lemma DeletionLeavesLeaderless(n: Net, u: UserId, g: GroupId)
    requires DeleteUser(n, u).Ok? && WithoutAdmin(n, g)
    ensures WithoutAdmin(DeleteUser(n, u).value, g)
  {
    H.LeaderlessStep(n.groups[g], G.Forget(u));
  }

  lemma LeaderlessStep(n: Net, e: Event, g: GroupId)
    requires Sound(n) && WithoutAdmin(n, g)
    ensures WithoutAdmin(Step(n, e), g)
  {
    if !OnGroups(e) {
      UsersFrame(n, e);
    } else if Outcome(n, e).Ok? {
      match e
      case GroupEvent(h, ge) => GroupEventLeavesLeaderless(n, h, ge, g);
      case RemoveUser(u) => DeletionLeavesLeaderless(n, u, g);
      case FoundGroup(_, _) => assert g < n.next;
      case AddUser(_) =>
    }
  }

  /** Whatever happens to the tables, a group without an admin never gets one. */
  lemma {:induction false} LeaderlessForever(n: Net, es: seq<Event>, g: GroupId)
    requires Sound(n) && WithoutAdmin(n, g)
    ensures WithoutAdmin(Run(n, es), g) && AdminsOf(Run(n, es), g) == {}
    decreases |es|
  {
    if es == [] {
      assert forall u :: u in n.groups[g].members ==> !n.groups[g].members[u].isAdmin;
    } else {
      LeaderlessStep(n, es[0], g);
      SoundStep(n, es[0]);
      LeaderlessForever(Step(n, es[0]), es[1..], g);
    }
  }

  /** Banning or deleting the only admin leaves a group without one. */
  lemma LosingTheOnlyAdmin(n: Net, e: Event, g: GroupId, creator: UserId)
    requires g in n.groups && H.Led(n.groups[g], creator) && Outcome(n, e).Ok?
    requires e == GroupEvent(g, G.Ban(creator)) || e == RemoveUser(creator)
    ensures WithoutAdmin(Step(n, e), g)
  {
    if e.GroupEvent? {
      H.LedStep(n.groups[g], G.Ban(creator), creator);
    } else {
      H.LedStep(n.groups[g], G.Forget(creator), creator);
    }
  }

  // ---- One admin at most ----

  ghost predicate LedByOne(group: G.Group) {
    H.Leaderless(group) || exists c :: H.Led(group, c)
  }

  ghost predicate AllLedByOne(n: Net) {
    forall g :: g in n.groups ==> LedByOne(n.groups[g])
  }

  lemma LedByOneStep(group: G.Group, e: G.Event)
    requires LedByOne(group)
    ensures LedByOne(G.Step(group, e))
  {
    if H.Leaderless(group) {
      H.LeaderlessStep(group, e);
    } else {
      var c :| H.Led(group, c);
      H.LedStep(group, e, c);
    }
  }

  lemma GroupEventKeepsOne(n: Net, g: GroupId, e: G.Event)
    requires AllLedByOne(n) && InGroup(n, g, e).Ok?
    ensures AllLedByOne(InGroup(n, g, e).value)
  {
    if g in n.groups {
      LedByOneStep(n.groups[g], e);
    }
  }

  lemma DeletionKeepsOne(n: Net, u: UserId)
    requires AllLedByOne(n) && DeleteUser(n, u).Ok?
    ensures AllLedByOne(DeleteUser(n, u).value)
  {
    forall g | g in n.groups
      ensures LedByOne(G.ForgetUser(n.groups[g], u))
    {
      LedByOneStep(n.groups[g], G.Forget(u));
    }
  }

  lemma FoundingKeepsOne(n: Net, u: UserId, threshold: int)
    requires AllLedByOne(n)
    ensures AllLedByOne(n.(next := n.next + 1, groups := n.groups[n.next := G.Founded(u, threshold)]))
  {
    assert H.Led(G.Founded(u, threshold), u);
  }

  lemma AllLedByOneStep(n: Net, e: Event)
    requires Sound(n) && AllLedByOne(n)
    ensures AllLedByOne(Step(n, e))
  {
    if !OnGroups(e) {
      UsersFrame(n, e);
    } else if Outcome(n, e).Ok? {
      match e
      case GroupEvent(g, ge) => GroupEventKeepsOne(n, g, ge);
      case RemoveUser(u) => DeletionKeepsOne(n, u);
      case FoundGroup(u, t) => FoundingKeepsOne(n, u, t);
      case AddUser(_) =>
    }
  }

  lemma {:induction false} AllLedByOneThroughout(n: Net, es: seq<Event>)
    requires Sound(n) && AllLedByOne(n)
    ensures AllLedByOne(Run(n, es))
    decreases |es|
  {
    if es != [] {
      AllLedByOneStep(n, es[0]);
      SoundStep(n, es[0]);
      AllLedByOneThroughout(Step(n, es[0]), es[1..]);
    }
  }

  /** In every state reachable from the empty database a group has at most one
      admin, so looking one up has one answer. */
  lemma OneAdminAtMost(es: seq<Event>, g: GroupId, a: Option<UserId>, b: Option<UserId>)
    ensures AdminRow(Run(EMPTY, es), g, a) && AdminRow(Run(EMPTY, es), g, b) ==> a == b
  {
    EmptyIsSound();
    AllLedByOneThroughout(EMPTY, es);
    var n := Run(EMPTY, es);
    if g in n.groups {
      assert LedByOne(n.groups[g]);
      if c :| H.Led(n.groups[g], c) {
        H.LedAdmins(n.groups[g], c);
      }
    }
  }

  // ---- Answers ----

  /** The handlers take a group's response or vote from its admins only. */
  predicate FromAnAdmin(n: Net, e: Event) {
    match e
    case RespondToProposal(_, g, _, _) => AdminsOf(n, g) != {}
    case VoteOnChat(_, g, _, _) => AdminsOf(n, g) != {}
    case _ => true
  }

  ghost predicate AllFromAdmins(n: Net, es: seq<Event>)
    decreases |es|
  {
    es != [] ==> FromAnAdmin(n, es[0]) && AllFromAdmins(Step(n, es[0]), es[1..])
  }

  /** The proposal, as long as it exists, waits for the group and is not accepted. */
  ghost predicate ProposalWaits(n: Net, p: PropId, g: GroupId) {
    p in n.proposals ==>
      g in n.proposals[p].roster && n.proposals[p].roster[g] == Pending && n.proposals[p].status != Accepted
  }

  ghost predicate ChatWaits(n: Net, h: ChatId, g: GroupId) {
    h in n.chats ==> g in n.chats[h].votes && n.chats[h].votes[g] == Pending && n.chats[h].status != Accepted
  }

  lemma OthersAnswer(n: Net, p: PropId, g: GroupId, other: GroupId, accept: bool, now: int)
    requires p in n.proposals && ProposalWaits(n, p, g) && other != g && Respond(n, p, other, accept, now).Ok?
    ensures ProposalWaits(Respond(n, p, other, accept, now).value, p, g)
  {
    var roster := n.proposals[p].roster[other := Answer(accept)];
    assert g in WithStatus(roster, Pending);
  }

  lemma ProposalWaitsStep(n: Net, e: Event, p: PropId, g: GroupId)
    requires Sound(n) && p < n.next && ProposalWaits(n, p, g) && FromAnAdmin(n, e) && AdminsOf(n, g) == {}
    ensures ProposalWaits(Step(n, e), p, g)
  {
    if e.RespondToProposal? && e.proposal == p {
      if Outcome(n, e).Ok? {
        OthersAnswer(n, p, g, e.group, e.accept, e.now);
      }
    } else {
      OthersKeepProposal(n, e, p);
    }
  }

  lemma OthersVote(n: Net, h: ChatId, g: GroupId, other: GroupId, approve: bool, now: int)
    requires h in n.chats && ChatWaits(n, h, g) && other != g && Vote(n, h, other, approve, now).Ok?
    ensures ChatWaits(Vote(n, h, other, approve, now).value, h, g)
  {
    var votes := n.chats[h].votes[other := Answer(approve)];
    assert g in WithStatus(votes, Pending);
  }

  lemma ChatWaitsStep(n: Net, e: Event, h: ChatId, g: GroupId)
    requires Sound(n) && h < n.next && ChatWaits(n, h, g) && FromAnAdmin(n, e) && AdminsOf(n, g) == {}
    ensures ChatWaits(Step(n, e), h, g)
  {
    if e.VoteOnChat? && e.chat == h {
      if Outcome(n, e).Ok? {
        OthersVote(n, h, g, e.group, e.approve, e.now);
      }
    } else {
      OthersKeepChat(n, e, h);
    }
  }

  /** A proposal that waits for a group without an admin is never accepted: in every
      history in which groups answer through their admins it keeps waiting, is
      declined by somebody else, or disappears. The same goes for a chat. */
  lemma {:induction false} WaitsForever(n: Net, es: seq<Event>, g: GroupId, p: PropId, h: ChatId)
    requires Sound(n) && WithoutAdmin(n, g) && AllFromAdmins(n, es) && p < n.next && h < n.next
    ensures ProposalWaits(n, p, g) ==> ProposalWaits(Run(n, es), p, g)
    ensures ChatWaits(n, h, g) ==> ChatWaits(Run(n, es), h, g)
    decreases |es|
  {
    if es != [] {
      LeaderlessForever(n, [], g);
      if ProposalWaits(n, p, g) {
        ProposalWaitsStep(n, es[0], p, g);
      }
      if ChatWaits(n, h, g) {
        ChatWaitsStep(n, es[0], h, g);
      }
      LeaderlessStep(n, es[0], g);
      SoundStep(n, es[0]);
      StepKeepsIssued(n, es[0]);
      WaitsForever(Step(n, es[0]), es[1..], g, p, h);
    }
  }
}
