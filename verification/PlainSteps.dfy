// The steps that leave keys and members where they are: they take nobody out of a
// group and no group out of a connection, and no secret is new or gains recipients.
module PlainSteps {
  import opened Prelude
  import opened Network
  import opened Eviction
  import opened Invariants
  import opened Consensus
  import opened Custody
  import opened Chats
  import G = Groups

  /** Users and members stay or grow. */
  ghost predicate WiderGroups(n: Net, n': Net) {
    && (forall c, g :: g in MembersOf(n, c) ==> g in MembersOf(n', c))
    && (forall g, u :: u in UsersOf(n, g) ==> u in UsersOf(n', g))
  }

  /** No secret is new and none changes its owner; no signal group of one does. */
  ghost predicate SameOwners(n: Net, n': Net) {
    && n'.secrets.Keys <= n.secrets.Keys
    && (forall s :: s in n'.secrets ==>
          n'.secrets[s].owner == n.secrets[s].owner && n'.secrets[s].keys.Keys <= n.secrets[s].keys.Keys)
    && (forall sg :: sg in n.signals ==> sg in n'.signals && n'.signals[sg].owner == n.signals[sg].owner)
  }

  // ---- Kinds of steps ----

  lemma SameTablesAreWider(n: Net, n': Net)
    requires n'.conns == n.conns && n'.groups == n.groups
    ensures WiderGroups(n, n')
  {
    assert forall c :: MembersOf(n', c) == MembersOf(n, c);
    assert forall g :: UsersOf(n', g) == UsersOf(n, g);
  }

  lemma MoreGroupsAreWider(n: Net, n': Net)
    requires n'.conns == n.conns && forall g :: g in n.groups ==> g in n'.groups && n'.groups[g] == n.groups[g]
    ensures WiderGroups(n, n')
  {
  }

  lemma ProposalStepIsPlain(n: Net, e: Event)
    requires OnProposals(e)
    ensures SameOwners(n, Step(n, e)) && WiderGroups(n, Step(n, e))
  {
  }

  predicate OnSignals(e: Event) {
    e.AddGroupSignal? || e.DeactivateSignal?
  }

  predicate OnUsers(e: Event) {
    e.AddUser? || e.FoundGroup?
  }

  ghost predicate OwnersStay(n: Net, n': Net) {
    && n' == n.(next := n'.next, signals := n'.signals)
    && forall sg :: sg in n.signals ==> sg in n'.signals && n'.signals[sg].owner == n.signals[sg].owner
  }

  lemma NewSignalStays(n: Net, e: Event)
    requires Issued(n) && e.AddGroupSignal?
    ensures OwnersStay(n, Step(n, e))
  {
  }

  lemma DeactivationStays(n: Net, e: Event)
    requires e.DeactivateSignal?
    ensures OwnersStay(n, Step(n, e))
  {
  }

  lemma SignalStepIsPlain(n: Net, e: Event)
    requires Sound(n) && OnSignals(e)
    ensures SameOwners(n, Step(n, e)) && WiderGroups(n, Step(n, e))
  {
    if e.AddGroupSignal? {
      NewSignalStays(n, e);
    } else {
      DeactivationStays(n, e);
    }
    SameTablesAreWider(n, Step(n, e));
  }

  lemma UserStepIsPlain(n: Net, e: Event)
    requires Sound(n) && OnUsers(e)
    ensures SameOwners(n, Step(n, e)) && WiderGroups(n, Step(n, e))
  {
    var n' := Step(n, e);
    assert n' == n.(next := n'.next, users := n'.users, groups := n'.groups);
    if e.FoundGroup? {
      MoreGroupsAreWider(n, n');
    } else {
      SameTablesAreWider(n, n');
    }
  }

  lemma FlagIsPlain(n: Net, u: UserId)
    ensures SameOwners(n, FlagRekeyForUser(n, u)) && WiderGroups(n, FlagRekeyForUser(n, u))
  {
  }

  lemma AnswerIsPlain(n: Net, p: PropId, n': Net)
    requires p in n.proposals && Answered(n, p, n')
    ensures SameOwners(n, n') && WiderGroups(n, n')
  {
  }

  lemma ResponseIsPlain(n: Net, e: Event)
    requires Sound(n) && Outcome(n, e).Ok? && e.RespondToProposal?
    ensures SameOwners(n, Step(n, e)) && WiderGroups(n, Step(n, e))
  {
    RespondAnswers(n, e.proposal, e.group, e.accept, e.now);
    AnswerIsPlain(n, e.proposal, Step(n, e));
  }

  lemma RekeyIsPlain(n: Net, e: Event)
    requires e.Rekey?
    ensures SameOwners(n, Step(n, e)) && WiderGroups(n, Step(n, e))
  {
    RekeysTouchKeysOnly(n, PendingRekeys(n, e.caller, e.publicKeys), e.entries);
    SameTablesAreWider(n, Step(n, e));
  }

  lemma RotationIsPlain(n: Net, e: Event)
    requires Outcome(n, e).Ok? && e.RotateSecret?
    ensures SameOwners(n, Step(n, e)) && WiderGroups(n, Step(n, e))
  {
    RotationEffect(n, e.secret, e.caller, e.payload, e.iv, e.wrapped);
    SameTablesAreWider(n, Step(n, e));
  }

  lemma ChatProposalIsPlain(n: Net, e: Event)
    requires Sound(n) && Outcome(n, e).Ok? && e.ProposeSignalChat?
    ensures SameOwners(n, Step(n, e)) && WiderGroups(n, Step(n, e))
  {
    ChatOpensPending(n, e.connection, e.proposer, e.req, e.admin, e.now);
    SameTablesAreWider(n, Step(n, e));
  }

  lemma MembersOnlyGrow(g: G.Group, e: G.Event)
    requires G.Outcome(g, e).Ok? && !e.Leave? && !e.Ban? && !e.Forget?
    ensures G.Users(g) <= G.Users(G.Outcome(g, e).value)
  {
  }

  lemma JoiningIsPlain(n: Net, g: GroupId, e: G.Event)
    requires InGroup(n, g, e).Ok? && !e.Leave? && !e.Ban?
    ensures SameOwners(n, InGroup(n, g, e).value) && WiderGroups(n, InGroup(n, g, e).value)
  {
    var n' := InGroup(n, g, e).value;
    if g in n.groups {
      MembersOnlyGrow(n.groups[g], e);
      assert n' == n.(groups := n.groups[g := G.Outcome(n.groups[g], e).value]);
    }
  }

  // ---- New secrets ----

  /** One secret more, and signal groups that leave those there were alone. */
  ghost predicate OneSecretMore(n: Net, n': Net, id: SecretId, secret: Secret) {
    && id !in n.secrets && n'.secrets == n.secrets[id := secret] && n'.conns == n.conns && n'.groups == n.groups
    && forall sg :: sg in n.signals ==> sg in n'.signals && n'.signals[sg] == n.signals[sg]
  }

  /** The vote that approves a chat with a complete bundle. */
  predicate ApprovesBundle(n: Net, e: Event) {
    e.VoteOnChat? && Approves(n, e.chat, e.group, e.approve, e.now) && BundleComplete(n.chats[e.chat])
  }

  lemma ApprovalAddsSecret(n: Net, e: Event)
    requires Issued(n) && Outcome(n, e).Ok? && e.VoteOnChat?
    requires ApprovesBundle(n, e)
    ensures var n' := Step(n, e);
      && n.next + 1 in n'.secrets && OneSecretMore(n, n', n.next + 1, n'.secrets[n.next + 1])
      && n'.secrets[n.next + 1].keys.Keys == n.chats[e.chat].bundle.wrapped.Keys
      && ConnectionOf(n', n'.secrets[n.next + 1]) == Some(n.chats[e.chat].connection)
  {
    ApprovalCreates(n, e.chat, e.group, e.now);
    VoteFrame(n, e);
  }

  lemma NewSecretAdds(n: Net, e: Event)
    requires Issued(n) && Outcome(n, e).Ok? && e.AddSecret?
    ensures var secret := Secret(e.secretOwner, e.payload, e.iv, e.author, FreshRows(WrappedRows(e.wrapped)));
      OneSecretMore(n, Step(n, e), n.next, secret) && secret.keys.Keys == Named(e.wrapped)
  {
    RowsOfAll(e.wrapped);
  }

  /** No secret is new and every signal group there was is as it was. */
  ghost predicate NoNewSecret(n: Net, n': Net) {
    n'.secrets == n.secrets && forall sg :: sg in n.signals ==> sg in n'.signals && n'.signals[sg] == n.signals[sg]
  }

  lemma IncompleteMakesNoSecret(n: Net, chat: Chat)
    requires Issued(n) && !BundleComplete(chat)
    ensures CreateSignalGroup(n, chat).Ok? && NoNewSecret(n, CreateSignalGroup(n, chat).value)
  {
  }

  lemma OtherVotesMakeNoSecret(n: Net, e: Event)
    requires Sound(n) && Outcome(n, e).Ok? && e.VoteOnChat? && !ApprovesBundle(n, e)
    ensures NoNewSecret(n, Step(n, e))
  {
    var chat := n.chats[e.chat].(votes := n.chats[e.chat].votes[e.group := Answer(e.approve)]);
    if e.approve && WithStatus(chat.votes, Pending) == {} {
      assert !BundleComplete(chat);
      IncompleteMakesNoSecret(n, chat);
    }
  }

  lemma OtherVoteIsPlain(n: Net, e: Event)
    requires Sound(n) && Outcome(n, e).Ok? && e.VoteOnChat? && !ApprovesBundle(n, e)
    ensures SameOwners(n, Step(n, e)) && WiderGroups(n, Step(n, e))
  {
    VoteFrame(n, e);
    OtherVotesMakeNoSecret(n, e);
    SameTablesAreWider(n, Step(n, e));
  }

  // ---- All plain steps ----

  /** Neither takes a user out of a group or a group out of a connection, nor makes
      a secret. */
  predicate IsPlain(n: Net, e: Event) {
    match e
    case RemoveUser(_) => false
    case GroupEvent(_, ge) => !ge.Leave? && !ge.Ban?
    case LeaveConnection(_, _) => false
    case BlockGroup(_, _) => false
    case VoteOnChat(_, _, _, _) => !ApprovesBundle(n, e)
    case AddSecret(_, _, _, _, _) => false
    case _ => true
  }

  lemma PlainStep(n: Net, e: Event)
    requires Sound(n) && Outcome(n, e).Ok? && IsPlain(n, e)
    ensures SameOwners(n, Step(n, e)) && WiderGroups(n, Step(n, e))
  {
    match e
    case GroupEvent(g, ge) => JoiningIsPlain(n, g, ge);
    case RespondToProposal(_, _, _, _) => ResponseIsPlain(n, e);
    case ProposeSignalChat(_, _, _, _, _) => ChatProposalIsPlain(n, e);
    case VoteOnChat(_, _, _, _) => OtherVoteIsPlain(n, e);
    case Rekey(_, _, _) => RekeyIsPlain(n, e);
    case RotateSecret(_, _, _, _, _) => RotationIsPlain(n, e);
    case FlagRekey(u) => FlagIsPlain(n, u);
    case AddGroupSignal(_) => SignalStepIsPlain(n, e);
    case DeactivateSignal(_) => SignalStepIsPlain(n, e);
    case AddUser(_) => UserStepIsPlain(n, e);
    case FoundGroup(_, _) => UserStepIsPlain(n, e);
    case _ => ProposalStepIsPlain(n, e);
  }
}
