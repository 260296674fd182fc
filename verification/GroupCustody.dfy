// Whether the recipients of a group's own secrets are its members: which steps keep
// that, exactly, and a history in which it is lost.
module GroupCustody {
  import opened Prelude
  import opened Network
  import opened Eviction
  import opened Invariants
  import opened Consensus
  import opened Custody
  import opened Chats
  import opened PlainSteps
  import G = Groups

  /** Every recipient of a group's secret is a member of the group. */
  ghost predicate OnlyMembersHold(n: Net) {
    forall s :: s in n.secrets && OwnerGroupOf(n, n.secrets[s]).Some? ==>
      n.secrets[s].keys.Keys <= UsersOf(n, OwnerGroupOf(n, n.secrets[s]).value)
  }

  /** A new secret of a group names only members. */
  predicate NamesMembers(n: Net, e: Event) {
    e.AddSecret? && Outcome(n, e).Ok? && e.secretOwner.OfSignalGroup? && n.signals[e.secretOwner.signal].owner.ByGroup? ==>
      Named(e.wrapped) <= UsersOf(n, n.signals[e.secretOwner.signal].owner.group)
  }

  /** Secrets of groups stay with their owner and gain no recipient, and a recipient
      who stays is as much a member as before. */
  ghost predicate Tighter(n: Net, n': Net) {
    forall s :: s in n'.secrets && OwnerGroupOf(n', n'.secrets[s]).Some? ==>
      && s in n.secrets && OwnerGroupOf(n, n.secrets[s]) == OwnerGroupOf(n', n'.secrets[s])
      && n'.secrets[s].keys.Keys <= n.secrets[s].keys.Keys
      && forall u :: u in n'.secrets[s].keys && u in UsersOf(n, OwnerGroupOf(n, n.secrets[s]).value)
           ==> u in UsersOf(n', OwnerGroupOf(n, n.secrets[s]).value)
  }

  lemma TighterKeeps(n: Net, n': Net)
    requires OnlyMembersHold(n) && Tighter(n, n')
    ensures OnlyMembersHold(n')
  {
  }

  lemma PlainIsTighter(n: Net, n': Net)
    requires Referential(n) && SameOwners(n, n') && WiderGroups(n, n')
    ensures Tighter(n, n')
  {
    forall s | s in n'.secrets && OwnerGroupOf(n', n'.secrets[s]).Some?
      ensures OwnerGroupOf(n, n.secrets[s]) == OwnerGroupOf(n', n'.secrets[s])
    {
      assert n.secrets[s].owner.signal in n.signals;
    }
  }

  lemma EvictionIsTighter(n: Net, cs: set<ConnId>, g: GroupId)
    requires Referential(n)
    ensures Tighter(n, Evicted(n, cs, g))
  {
    var n' := Evicted(n, cs, g);
    forall s | s in n'.secrets && OwnerGroupOf(n', n'.secrets[s]).Some?
      ensures OwnerGroupOf(n, n.secrets[s]) == OwnerGroupOf(n', n'.secrets[s])
    {
      assert n'.secrets[s].owner == n.secrets[s].owner;
    }
  }

  lemma LeaveKeepsHolders(n: Net, c: ConnId, g: GroupId)
    requires Sound(n) && OnlyMembersHold(n) && Leave(n, c, g).Ok?
    ensures OnlyMembersHold(Leave(n, c, g).value)
  {
    RemovalIsEviction(n, c, g);
    EvictionIsTighter(n, {c}, g);
    TighterKeeps(n, Leave(n, c, g).value);
  }

  lemma BlockKeepsHolders(n: Net, a: GroupId, b: GroupId)
    requires Sound(n) && OnlyMembersHold(n) && Block(n, a, b).Ok?
    ensures OnlyMembersHold(Block(n, a, b).value)
  {
    var n1 := n.(blocks := n.blocks + {(a, b)});
    PlainIsTighter(n, n1);
    TighterKeeps(n, n1);
    BlockIsEviction(n, a, b);
    EvictionIsTighter(n1, SharedConnections(n, a, b), b);
    TighterKeeps(n1, Block(n, a, b).value);
  }

  lemma DeletionKeepsHolders(n: Net, u: UserId)
    requires OnlyMembersHold(n) && DeleteUser(n, u).Ok?
    ensures OnlyMembersHold(DeleteUser(n, u).value)
  {
    var n' := DeleteUser(n, u).value;
    forall s | s in n'.secrets && OwnerGroupOf(n', n'.secrets[s]).Some?
      ensures n'.secrets[s].keys.Keys <= UsersOf(n', OwnerGroupOf(n', n'.secrets[s]).value)
    {
      assert OwnerGroupOf(n', n'.secrets[s]) == OwnerGroupOf(n, n.secrets[s]);
      var g := OwnerGroupOf(n, n.secrets[s]).value;
      assert UsersOf(n', g) == UsersOf(n, g) - {u};
    }
  }

  /** Whoever leaves or is banned loses the keys of the group's secrets with the
      membership. */
  lemma ExpulsionKeepsHolders(n: Net, g: GroupId, e: G.Event, u: UserId)
    requires OnlyMembersHold(n) && Expels(e, u) && InGroup(n, g, e).Ok?
    ensures OnlyMembersHold(InGroup(n, g, e).value)
  {
    var n' := InGroup(n, g, e).value;
    GroupEventRewrites(n, g, e);
    forall s | s in n'.secrets && OwnerGroupOf(n', n'.secrets[s]).Some?
      ensures n'.secrets[s].keys.Keys <= UsersOf(n', OwnerGroupOf(n', n'.secrets[s]).value)
    {
      assert OwnerGroupOf(n', n'.secrets[s]) == OwnerGroupOf(n, n.secrets[s]);
      if OwnerGroupOf(n, n.secrets[s]) == Some(g) {
        ExpulsionRevokes(n, g, e, u, s);
        ExpelledUsers(n, g, e, u, g);
      } else {
        GroupStepSpares(n, g, e, s);
        ExpelledUsers(n, g, e, u, OwnerGroupOf(n, n.secrets[s]).value);
      }
    }
  }

  lemma ExpelledUsers(n: Net, g: GroupId, e: G.Event, u: UserId, h: GroupId)
    requires Expels(e, u) && InGroup(n, g, e).Ok?
    ensures UsersOf(InGroup(n, g, e).value, h) == if h == g then UsersOf(n, h) - {u} else UsersOf(n, h)
  {
  }

  lemma NewSecretHoldersIff(n: Net, n': Net, id: SecretId, secret: Secret)
    requires Referential(n) && OnlyMembersHold(n) && OneSecretMore(n, n', id, secret)
    ensures OnlyMembersHold(n') <==>
      (OwnerGroupOf(n', secret).Some? ==> secret.keys.Keys <= UsersOf(n, OwnerGroupOf(n', secret).value))
  {
    assert forall g :: UsersOf(n', g) == UsersOf(n, g);
    forall s | s in n.secrets
      ensures n'.secrets[s] == n.secrets[s] && OwnerGroupOf(n', n.secrets[s]) == OwnerGroupOf(n, n.secrets[s])
    {
    }
    assert n'.secrets[id] == secret;
  }

  lemma AddSecretHoldersIff(n: Net, e: Event)
    requires Sound(n) && OnlyMembersHold(n) && Outcome(n, e).Ok? && e.AddSecret?
    ensures OnlyMembersHold(Step(n, e)) <==> NamesMembers(n, e)
  {
    var secret := Secret(e.secretOwner, e.payload, e.iv, e.author, FreshRows(WrappedRows(e.wrapped)));
    NewSecretAdds(n, e);
    NewSecretHoldersIff(n, Step(n, e), n.next, secret);
  }

  lemma ApprovalKeepsHolders(n: Net, e: Event)
    requires Sound(n) && OnlyMembersHold(n) && Outcome(n, e).Ok? && ApprovesBundle(n, e)
    ensures OnlyMembersHold(Step(n, e))
  {
    ApprovalAddsSecret(n, e);
    NewSecretHoldersIff(n, Step(n, e), n.next + 1, Step(n, e).secrets[n.next + 1]);
  }

  /** One step of any kind keeps the recipients of groups' secrets among the members
      exactly when it is not the creation of a group's secret for someone who is no
      member: nothing compares the keys with the membership. */
  lemma HoldersStepIff(n: Net, e: Event)
    requires Sound(n) && OnlyMembersHold(n)
    ensures OnlyMembersHold(Step(n, e)) <==> NamesMembers(n, e)
  {
    if Outcome(n, e).Ok? {
      if IsPlain(n, e) {
        PlainStep(n, e);
        PlainIsTighter(n, Step(n, e));
        TighterKeeps(n, Step(n, e));
      } else {
        match e
        case RemoveUser(u) => DeletionKeepsHolders(n, u);
        case GroupEvent(g, ge) => ExpulsionKeepsHolders(n, g, ge, ge.user);
        case LeaveConnection(c, g) => LeaveKeepsHolders(n, c, g);
        case BlockGroup(a, b) => BlockKeepsHolders(n, a, b);
        case VoteOnChat(_, _, _, _) => ApprovalKeepsHolders(n, e);
        case AddSecret(_, _, _, _, _) => AddSecretHoldersIff(n, e);
      }
    }
  }

  ghost predicate AlwaysMembersOnly(n: Net, es: seq<Event>)
    decreases |es|
  {
    OnlyMembersHold(n) && (es != [] ==> AlwaysMembersOnly(Step(n, es[0]), es[1..]))
  }

  ghost predicate AlwaysNamesMembers(n: Net, es: seq<Event>)
    decreases |es|
  {
    es != [] ==> NamesMembers(n, es[0]) && AlwaysNamesMembers(Step(n, es[0]), es[1..])
  }

  /** A whole history has only members among the recipients in all its states exactly
      when each secret it creates for a group names only members of that moment. */
  lemma {:induction false} HoldersThroughoutIff(n: Net, es: seq<Event>)
    requires Sound(n) && OnlyMembersHold(n)
    ensures AlwaysMembersOnly(n, es) <==> AlwaysNamesMembers(n, es)
    decreases |es|
  {
    if es != [] {
      HoldersStepIff(n, es[0]);
      SoundStep(n, es[0]);
      if OnlyMembersHold(Step(n, es[0])) {
        HoldersThroughoutIff(Step(n, es[0]), es[1..]);
      } else {
        assert !AlwaysMembersOnly(Step(n, es[0]), es[1..]);
      }
    }
  }

  const FOR_A_STRANGER := AddSecret(OfSignalGroup(1), "payload", "iv", 0, [WrappedKey(1, "key")])

  /** Two users, a group of the first with a signal group. */
  lemma SignalOpened() returns (es: seq<Event>)
    ensures Run(EMPTY, es) == EMPTY.(next := 2, users := {0, 1}, groups := map[0 := G.Founded(0, 2)],
                                     signals := map[1 := SignalGroup(ByGroup(0), true)])
  {
    RunOne(EMPTY, AddUser(0));
    es := [AddUser(0)];
    RunOneMore(EMPTY, es, AddUser(1));
    es := es + [AddUser(1)];
    RunOneMore(EMPTY, es, FoundGroup(0, 2));
    es := es + [FoundGroup(0, 2)];
    RunOneMore(EMPTY, es, AddGroupSignal(Some(0)));
    es := es + [AddGroupSignal(Some(0))];
  }

  /** The admin hands a key of the group's secret to somebody who is no member. */
  lemma StrangerReceivesKey() returns (es: seq<Event>)
    ensures !OnlyMembersHold(Run(EMPTY, es))
  {
    es := SignalOpened();
    ReachableIsSound(es);
    var n := Run(EMPTY, es);
    RunOneMore(EMPTY, es, FOR_A_STRANGER);
    es := es + [FOR_A_STRANGER];
    assert OnlyMembersHold(n);
    StrangerIsNamed(n);
    HoldersStepIff(n, FOR_A_STRANGER);
  }

  lemma StrangerIsNamed(n: Net)
    requires n.users == {0, 1} && n.groups == map[0 := G.Founded(0, 2)] && n.signals == map[1 := SignalGroup(ByGroup(0), true)]
    ensures !NamesMembers(n, FOR_A_STRANGER)
  {
    var wrapped := [WrappedKey(1, "key")];
    assert wrapped[..0] == [];
    assert WrappedRows(wrapped) == map[1 := "key"];
    assert wrapped[0].user in Named(wrapped);
    assert 1 !in UsersOf(n, 0);
  }
}
