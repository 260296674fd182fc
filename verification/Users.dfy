// The foreign keys into the user table, which every history keeps, so that a row
// about to be inserted for a member or a recipient never lacks its user.
module Users {
  import opened Prelude
  import opened Network
  import opened Eviction
  import opened Invariants
  import opened Consensus
  import opened Custody
  import G = Groups

  ghost predicate MembersKnown(n: Net) {
    forall g :: g in n.groups ==> G.Users(n.groups[g]) <= n.users
  }

  ghost predicate RecipientsKnown(n: Net) {
    forall s :: s in n.secrets ==> n.secrets[s].keys.Keys <= n.users && n.secrets[s].updatedBy in n.users
  }

  ghost predicate ProposersKnown(n: Net) {
    forall h :: h in n.chats && n.chats[h].proposerUser.Some? ==> n.chats[h].proposerUser.value in n.users
  }

  ghost predicate Known(n: Net) {
    MembersKnown(n) && RecipientsKnown(n) && ProposersKnown(n)
  }

  // ---- Groups and users ----

  lemma MembersComeFromRows(g: G.Group, e: G.Event)
    requires G.Outcome(g, e).Ok?
    ensures G.Users(G.Outcome(g, e).value) <= G.Users(g) + G.Named(e)
  {
  }

  lemma GroupRowKnown(n: Net, g: GroupId, group: G.Group)
    requires Known(n) && G.Users(group) <= n.users
    ensures Known(n.(groups := n.groups[g := group]))
  {
  }

  lemma RevocationKnown(n: Net, g: GroupId, user: UserId)
    requires Known(n)
    ensures Known(RevokeForUser(n, g, user))
  {
  }

  lemma GroupStepKnown(n: Net, g: GroupId, e: G.Event)
    requires Known(n) && InGroup(n, g, e).Ok?
    ensures Known(InGroup(n, g, e).value)
  {
    var n1 := n;
    if g in n.groups {
      var group := G.Outcome(n.groups[g], e).value;
      MembersComeFromRows(n.groups[g], e);
      GroupRowKnown(n, g, group);
      n1 := n.(groups := n.groups[g := group]);
    }
    if e.Leave? || e.Ban? {
      RevocationKnown(n1, g, e.user);
    }
  }

  lemma DeletionKnown(n: Net, u: UserId)
    requires Known(n) && DeleteUser(n, u).Ok?
    ensures Known(DeleteUser(n, u).value)
  {
  }

  lemma UserStepKnown(n: Net, e: Event)
    requires Known(n) && Outcome(n, e).Ok? && (e.AddUser? || e.FoundGroup?)
    ensures Known(Step(n, e))
  {
  }

  // ---- Secrets ----

  lemma RekeyKnown(n: Net, allowed: set<(SecretId, UserId)>, entries: seq<RekeyEntry>)
    requires Known(n)
    ensures Known(SubmitRekeys(n, allowed, entries))
  {
    RekeysTouchKeysOnly(n, allowed, entries);
  }

  lemma SecretStepKnown(n: Net, e: Event)
    requires Known(n) && Outcome(n, e).Ok? && (e.AddSecret? || e.FlagRekey?)
    ensures Known(Step(n, e))
  {
  }

  lemma RotationKnown(n: Net, e: Event)
    requires Known(n) && Outcome(n, e).Ok? && e.RotateSecret?
    ensures Known(Step(n, e))
  {
    RotationEffect(n, e.secret, e.caller, e.payload, e.iv, e.wrapped);
  }

  // ---- Chats ----

  lemma CreationKnown(n: Net, h: Chat)
    requires Known(n) && CreateSignalGroup(n, h).Ok?
    ensures Known(CreateSignalGroup(n, h).value)
  {
  }

  lemma ChatRowKnown(n: Net, h: ChatId, row: Chat)
    requires Known(n) && (row.proposerUser.Some? ==> row.proposerUser.value in n.users)
    ensures Known(n.(chats := n.chats[h := row]))
  {
  }

  lemma VoteKnown(n: Net, h: ChatId, g: GroupId, approve: bool, now: int)
    requires Known(n) && Vote(n, h, g, approve, now).Ok?
    ensures Known(Vote(n, h, g, approve, now).value)
  {
    var chat := n.chats[h].(votes := n.chats[h].votes[g := Answer(approve)]);
    if !approve {
      ChatRowKnown(n, h, chat.(status := Declined));
    } else if WithStatus(chat.votes, Pending) != {} {
      ChatRowKnown(n, h, chat);
    } else {
      CreationKnown(n, chat);
      var created := CreateSignalGroup(n, chat).value;
      assert created.chats == n.chats;
      ChatRowKnown(created, h, chat.(status := Accepted));
    }
  }

  lemma ProposeChatKnown(n: Net, c: ConnId, g: GroupId, req: ChatRequest, admin: Option<UserId>, now: int)
    requires Sound(n) && Known(n) && ProposeChat(n, c, g, req, admin, now).Ok?
    ensures Known(ProposeChat(n, c, g, req, admin, now).value)
  {
    ChatOpensPending(n, c, g, req, admin, now);
  }

  // ---- Connections ----

  lemma EvictionKnown(n: Net, cs: set<ConnId>, g: GroupId)
    requires Known(n)
    ensures Known(Evicted(n, cs, g))
  {
  }

  lemma LeaveKnown(n: Net, c: ConnId, g: GroupId)
    requires Known(n) && Leave(n, c, g).Ok?
    ensures Known(Leave(n, c, g).value)
  {
    RemovalIsEviction(n, c, g);
    EvictionKnown(n, {c}, g);
  }

  lemma BlockKnown(n: Net, a: GroupId, b: GroupId)
    requires Known(n) && Block(n, a, b).Ok?
    ensures Known(Block(n, a, b).value)
  {
    BlockIsEviction(n, a, b);
    EvictionKnown(n.(blocks := n.blocks + {(a, b)}), SharedConnections(n, a, b), b);
  }

  lemma SameRowsKnown(n: Net, n': Net)
    requires Known(n) && n' == n.(next := n'.next, blocks := n'.blocks, conns := n'.conns, proposals := n'.proposals, signals := n'.signals)
    ensures Known(n')
  {
  }

  lemma KnownGroupStep(n: Net, e: Event)
    requires Known(n) && Outcome(n, e).Ok? && OnGroups(e)
    ensures Known(Step(n, e))
  {
    match e
    case AddUser(_) => UserStepKnown(n, e);
    case RemoveUser(u) => DeletionKnown(n, u);
    case FoundGroup(_, _) => UserStepKnown(n, e);
    case GroupEvent(g, ge) => GroupStepKnown(n, g, ge);
  }

  lemma KnownSecretStep(n: Net, e: Event)
    requires Known(n) && Outcome(n, e).Ok? && OnSecrets(e)
    ensures Known(Step(n, e))
  {
    match e
    case Rekey(caller, publicKeys, entries) => RekeyKnown(n, PendingRekeys(n, caller, publicKeys), entries);
    case RotateSecret(_, _, _, _, _) => RotationKnown(n, e);
    case _ => SecretStepKnown(n, e);
  }

  lemma KnownStep(n: Net, e: Event)
    requires Sound(n) && Known(n)
    ensures Known(Step(n, e))
  {
    if Outcome(n, e).Ok? {
      if OnGroups(e) {
        KnownGroupStep(n, e);
      } else if OnSecrets(e) {
        KnownSecretStep(n, e);
      } else {
        match e
        case LeaveConnection(c, g) => LeaveKnown(n, c, g);
        case BlockGroup(a, b) => BlockKnown(n, a, b);
        case ProposeSignalChat(c, g, req, admin, now) => ProposeChatKnown(n, c, g, req, admin, now);
        case VoteOnChat(h, g, approve, now) => VoteKnown(n, h, g, approve, now);
        case RespondToProposal(_, _, _, _) =>
          ResponseFrame(n, e);
          SameRowsKnown(n, Step(n, e));
        case _ => SameRowsKnown(n, Step(n, e));
      }
    }
  }

  /** In every state of every history the members of groups, the recipients and
      authors of secrets and the proposers of chats are users there are. */
  lemma {:induction false} KnownThroughout(n: Net, es: seq<Event>)
    requires Sound(n) && Known(n)
    ensures Known(Run(n, es))
    decreases |es|
  {
    if es != [] {
      SoundStep(n, es[0]);
      KnownStep(n, es[0]);
      KnownThroughout(Step(n, es[0]), es[1..]);
    }
  }

  lemma ReachableIsKnown(es: seq<Event>)
    ensures Known(Run(EMPTY, es))
  {
    EmptyIsSound();
    KnownThroughout(EMPTY, es);
  }
}
