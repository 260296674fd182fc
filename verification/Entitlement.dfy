// Whether the recipients of a connection's secrets are users of its member groups:
// which steps keep that, exactly, and two histories in which it is lost.
module Entitlement {
  import opened Prelude
  import opened Network
  import opened Eviction
  import opened Invariants
  import opened Consensus
  import opened Custody
  import opened Chats
  import opened PlainSteps
  import G = Groups

  ghost predicate Entitled(n: Net, c: ConnId, u: UserId) {
    exists g :: g in MembersOf(n, c) && u in UsersOf(n, g)
  }

  /** Every recipient of a connection's secret is a user of a member group. */
  ghost predicate AllEntitled(n: Net) {
    forall s, u :: s in n.secrets && ConnectionOf(n, n.secrets[s]).Some? && u in n.secrets[s].keys ==>
      Entitled(n, ConnectionOf(n, n.secrets[s]).value, u)
  }

  /** Wherever the user holds a key of a connection's secret, some member group
      other than `g` has the user too. */
  ghost predicate EntitledWithout(n: Net, g: GroupId, u: UserId) {
    forall s :: s in n.secrets && ConnectionOf(n, n.secrets[s]).Some? && u in n.secrets[s].keys ==>
      exists h :: h in MembersOf(n, ConnectionOf(n, n.secrets[s]).value) && h != g && u in UsersOf(n, h)
  }

  ghost predicate AllNamedEntitled(n: Net, c: ConnId, users: set<UserId>) {
    forall u :: u in users ==> Entitled(n, c, u)
  }

  /** What a successful step must not do: take a user out of the last member group
      that entitles it to a key it keeps, or hand a key of a connection to someone
      who is in none of its groups. */
  ghost predicate Harmless(n: Net, e: Event) {
    Outcome(n, e).Ok? ==>
      match e
      case GroupEvent(g, ge) => ge.Leave? || ge.Ban? ==> EntitledWithout(n, g, ge.user)
      case VoteOnChat(h, _, _, _) =>
        ApprovesBundle(n, e) ==>
          AllNamedEntitled(n, n.chats[h].connection, n.chats[h].bundle.wrapped.Keys)
      case AddSecret(owner, _, _, _, wrapped) =>
        owner.OfSignalGroup? && n.signals[owner.signal].owner.ByConnection? ==>
          AllNamedEntitled(n, n.signals[owner.signal].owner.connection, Named(wrapped))
      case _ => true
  }

  // ---- Steps that cannot lose it ----

  /** Recipients and membership only move in the safe direction. */
  ghost predicate Safer(n: Net, n': Net) {
    forall s :: s in n'.secrets && ConnectionOf(n', n'.secrets[s]).Some? ==>
      && s in n.secrets && ConnectionOf(n, n.secrets[s]) == ConnectionOf(n', n'.secrets[s])
      && n'.secrets[s].keys.Keys <= n.secrets[s].keys.Keys
      && forall u :: u in n'.secrets[s].keys && Entitled(n, ConnectionOf(n, n.secrets[s]).value, u)
           ==> Entitled(n', ConnectionOf(n, n.secrets[s]).value, u)
  }

  lemma SaferKeeps(n: Net, n': Net)
    requires AllEntitled(n) && Safer(n, n')
    ensures AllEntitled(n')
  {
  }

  lemma WiderEntitles(n: Net, n': Net, c: ConnId, u: UserId)
    requires WiderGroups(n, n') && Entitled(n, c, u)
    ensures Entitled(n', c, u)
  {
    var g :| g in MembersOf(n, c) && u in UsersOf(n, g);
    assert g in MembersOf(n', c) && u in UsersOf(n', g);
  }

  lemma PlainIsSafer(n: Net, n': Net)
    requires Referential(n) && SameOwners(n, n') && WiderGroups(n, n')
    ensures Safer(n, n')
  {
    forall s | s in n'.secrets && ConnectionOf(n', n'.secrets[s]).Some?
      ensures ConnectionOf(n, n.secrets[s]) == ConnectionOf(n', n'.secrets[s])
      ensures forall u :: u in n'.secrets[s].keys && Entitled(n, ConnectionOf(n, n.secrets[s]).value, u)
                ==> Entitled(n', ConnectionOf(n, n.secrets[s]).value, u)
    {
      assert n.secrets[s].owner.signal in n.signals;
      forall u | u in n'.secrets[s].keys && Entitled(n, ConnectionOf(n, n.secrets[s]).value, u)
        ensures Entitled(n', ConnectionOf(n, n.secrets[s]).value, u)
      {
        WiderEntitles(n, n', ConnectionOf(n, n.secrets[s]).value, u);
      }
    }
  }

  lemma EvictionIsSafer(n: Net, cs: set<ConnId>, g: GroupId)
    ensures Safer(n, Evicted(n, cs, g))
  {
    var n' := Evicted(n, cs, g);
    forall s | s in n'.secrets && ConnectionOf(n', n'.secrets[s]).Some?
      ensures ConnectionOf(n, n.secrets[s]) == ConnectionOf(n', n'.secrets[s])
      ensures forall u :: u in n'.secrets[s].keys && Entitled(n, ConnectionOf(n, n.secrets[s]).value, u)
                ==> Entitled(n', ConnectionOf(n, n.secrets[s]).value, u)
    {
      assert n'.secrets[s].owner == n.secrets[s].owner;
      var c := ConnectionOf(n, n.secrets[s]).value;
      forall u | u in n'.secrets[s].keys && Entitled(n, c, u)
        ensures Entitled(n', c, u)
      {
        StillEntitled(n, cs, g, s, u);
      }
    }
  }

  /** Who keeps a key through an eviction is in another member group. */
  lemma StillEntitled(n: Net, cs: set<ConnId>, g: GroupId, s: SecretId, u: UserId)
    requires s in Evicted(n, cs, g).secrets && ConnectionOf(n, n.secrets[s]).Some? && u in Evicted(n, cs, g).secrets[s].keys
    requires Entitled(n, ConnectionOf(n, n.secrets[s]).value, u)
    ensures Entitled(Evicted(n, cs, g), ConnectionOf(n, n.secrets[s]).value, u)
  {
    var n' := Evicted(n, cs, g);
    var c := ConnectionOf(n, n.secrets[s]).value;
    var h :| h in MembersOf(n, c) && u in UsersOf(n, h);
    assert c in n.conns && c !in Dissolved(n, cs, g);
    assert c in cs ==> h != g;
    assert h in MembersOf(n', c) && u in UsersOf(n', h);
  }

  lemma LeaveKeepsEntitled(n: Net, c: ConnId, g: GroupId)
    requires AllEntitled(n) && Leave(n, c, g).Ok?
    ensures AllEntitled(Leave(n, c, g).value)
  {
    RemovalIsEviction(n, c, g);
    EvictionIsSafer(n, {c}, g);
    SaferKeeps(n, Leave(n, c, g).value);
  }

  lemma BlockKeepsEntitled(n: Net, a: GroupId, b: GroupId)
    requires Sound(n) && AllEntitled(n) && Block(n, a, b).Ok?
    ensures AllEntitled(Block(n, a, b).value)
  {
    var n1 := n.(blocks := n.blocks + {(a, b)});
    PlainIsSafer(n, n1);
    SaferKeeps(n, n1);
    BlockIsEviction(n, a, b);
    EvictionIsSafer(n1, SharedConnections(n, a, b), b);
    SaferKeeps(n1, Block(n, a, b).value);
  }

  lemma DeletionKeepsEntitled(n: Net, u: UserId)
    requires Sound(n) && AllEntitled(n) && DeleteUser(n, u).Ok?
    ensures AllEntitled(DeleteUser(n, u).value)
  {
    var n' := DeleteUser(n, u).value;
    forall s, v | s in n'.secrets && ConnectionOf(n', n'.secrets[s]).Some? && v in n'.secrets[s].keys
      ensures Entitled(n', ConnectionOf(n', n'.secrets[s]).value, v)
    {
      var c := ConnectionOf(n', n'.secrets[s]).value;
      assert ConnectionOf(n, n.secrets[s]) == Some(c);
      assert v in n.secrets[s].keys && v != u;
      assert Entitled(n, c, v);
      var g :| g in MembersOf(n, c) && v in UsersOf(n, g);
      assert g in MembersOf(n', c) && v in UsersOf(n', g);
    }
  }

  // ---- Removal ----

  /** `u` has left `g` and everything about connections' secrets is as it was. */
  ghost predicate OnlyLeft(n: Net, n': Net, g: GroupId, u: UserId) {
    && (forall h, v :: v in UsersOf(n', h) <==> v in UsersOf(n, h) && !(h == g && v == u))
    && n'.conns == n.conns && n'.signals == n.signals && n'.secrets.Keys == n.secrets.Keys
    && (forall s :: s in n.secrets ==> n'.secrets[s].owner == n.secrets[s].owner)
    && (forall s :: s in n.secrets && OwnerGroupOf(n, n.secrets[s]).None? ==> n'.secrets[s] == n.secrets[s])
  }

  lemma RevocationSparesConnections(n: Net, g: GroupId, u: UserId)
    ensures var n' := RevokeForUser(n, g, u);
      && n' == n.(secrets := n'.secrets) && n'.secrets.Keys == n.secrets.Keys
      && (forall s :: s in n.secrets ==> n'.secrets[s].owner == n.secrets[s].owner)
      && (forall s :: s in n.secrets && OwnerGroupOf(n, n.secrets[s]).None? ==> n'.secrets[s] == n.secrets[s])
  {
  }

  lemma RemovedUsers(n: Net, g: GroupId, e: G.Event, u: UserId)
    requires Expels(e, u) && InGroup(n, g, e).Ok?
    ensures OnlyLeft(n, InGroup(n, g, e).value, g, u)
  {
    var group := G.Outcome(n.groups[g], e).value;
    assert G.Users(group) == G.Users(n.groups[g]) - {u};
    var n1 := n.(groups := n.groups[g := group]);
    RevocationSparesConnections(n1, g, u);
    assert forall s :: s in n.secrets ==> OwnerGroupOf(n1, n.secrets[s]) == OwnerGroupOf(n, n.secrets[s]);
  }

  lemma ConnectionsSecretsStay(n: Net, n': Net, g: GroupId, u: UserId, s: SecretId)
    requires OnlyLeft(n, n', g, u) && s in n.secrets
    ensures ConnectionOf(n', n'.secrets[s]) == ConnectionOf(n, n.secrets[s])
    ensures ConnectionOf(n, n.secrets[s]).Some? ==> n'.secrets[s] == n.secrets[s]
  {
  }

  lemma RemovalSpares(n: Net, n': Net, g: GroupId, u: UserId)
    requires AllEntitled(n) && OnlyLeft(n, n', g, u) && EntitledWithout(n, g, u)
    ensures AllEntitled(n')
  {
    forall s, v | s in n'.secrets && ConnectionOf(n', n'.secrets[s]).Some? && v in n'.secrets[s].keys
      ensures Entitled(n', ConnectionOf(n', n'.secrets[s]).value, v)
    {
      ConnectionsSecretsStay(n, n', g, u, s);
      OthersStayEntitled(n, n', g, u, s, v);
    }
  }

  lemma RemovalNeeds(n: Net, n': Net, g: GroupId, u: UserId)
    requires AllEntitled(n') && OnlyLeft(n, n', g, u)
    ensures EntitledWithout(n, g, u)
  {
    forall s | s in n.secrets && ConnectionOf(n, n.secrets[s]).Some? && u in n.secrets[s].keys
      ensures exists h :: h in MembersOf(n, ConnectionOf(n, n.secrets[s]).value) && h != g && u in UsersOf(n, h)
    {
      ConnectionsSecretsStay(n, n', g, u, s);
      var c := ConnectionOf(n, n.secrets[s]).value;
      assert Entitled(n', c, u);
      var h :| h in MembersOf(n', c) && u in UsersOf(n', h);
      assert h in MembersOf(n, c) && h != g && u in UsersOf(n, h);
    }
  }

  lemma RemovalIff(n: Net, g: GroupId, e: G.Event, u: UserId)
    requires AllEntitled(n) && Expels(e, u) && InGroup(n, g, e).Ok?
    ensures AllEntitled(InGroup(n, g, e).value) <==> EntitledWithout(n, g, u)
  {
    var n' := InGroup(n, g, e).value;
    RemovedUsers(n, g, e, u);
    if EntitledWithout(n, g, u) {
      RemovalSpares(n, n', g, u);
    }
    if AllEntitled(n') {
      RemovalNeeds(n, n', g, u);
    }
  }

  lemma OthersStayEntitled(n: Net, n': Net, g: GroupId, u: UserId, s: SecretId, v: UserId)
    requires AllEntitled(n) && EntitledWithout(n, g, u) && n'.conns == n.conns
    requires forall h, w :: w in UsersOf(n', h) <==> w in UsersOf(n, h) && !(h == g && w == u)
    requires s in n.secrets && ConnectionOf(n, n.secrets[s]).Some? && v in n.secrets[s].keys
    ensures Entitled(n', ConnectionOf(n, n.secrets[s]).value, v)
  {
    var c := ConnectionOf(n, n.secrets[s]).value;
    if v == u {
      var h :| h in MembersOf(n, c) && h != g && u in UsersOf(n, h);
      assert h in MembersOf(n', c) && u in UsersOf(n', h);
    } else {
      assert Entitled(n, c, v);
      var h :| h in MembersOf(n, c) && v in UsersOf(n, h);
      assert h in MembersOf(n', c) && v in UsersOf(n', h);
    }
  }

  // ---- New secrets ----

  lemma NewSecretIff(n: Net, n': Net, id: SecretId, secret: Secret)
    requires Referential(n) && AllEntitled(n) && OneSecretMore(n, n', id, secret)
    ensures AllEntitled(n') <==>
      (ConnectionOf(n', secret).Some? ==> AllNamedEntitled(n, ConnectionOf(n', secret).value, secret.keys.Keys))
  {
    forall c, u
      ensures Entitled(n', c, u) <==> Entitled(n, c, u)
    {
      SameEntitlement(n, n', c, u);
    }
    forall s | s in n.secrets
      ensures ConnectionOf(n', n'.secrets[s]) == ConnectionOf(n, n.secrets[s])
    {
      assert n'.secrets[s] == n.secrets[s];
    }
    assert n'.secrets[id] == secret;
    if AllEntitled(n') && ConnectionOf(n', secret).Some? {
      forall u | u in secret.keys
        ensures Entitled(n, ConnectionOf(n', secret).value, u)
      {
        assert Entitled(n', ConnectionOf(n', n'.secrets[id]).value, u);
      }
    }
  }

  lemma SameEntitlement(n: Net, n': Net, c: ConnId, u: UserId)
    requires n'.conns == n.conns && n'.groups == n.groups
    ensures Entitled(n', c, u) <==> Entitled(n, c, u)
  {
    assert MembersOf(n', c) == MembersOf(n, c);
    assert forall g :: UsersOf(n', g) == UsersOf(n, g);
  }

  lemma AddSecretIff(n: Net, e: Event)
    requires Sound(n) && AllEntitled(n) && Outcome(n, e).Ok? && e.AddSecret?
    ensures AllEntitled(Step(n, e)) <==> Harmless(n, e)
  {
    var secret := Secret(e.secretOwner, e.payload, e.iv, e.author, FreshRows(WrappedRows(e.wrapped)));
    NewSecretAdds(n, e);
    NewSecretIff(n, Step(n, e), n.next, secret);
  }

  lemma CompleteApprovalIff(n: Net, e: Event)
    requires Sound(n) && AllEntitled(n) && Outcome(n, e).Ok? && e.VoteOnChat?
    requires ApprovesBundle(n, e)
    ensures AllEntitled(Step(n, e)) <==> AllNamedEntitled(n, n.chats[e.chat].connection, n.chats[e.chat].bundle.wrapped.Keys)
  {
    ApprovalAddsSecret(n, e);
    NewSecretIff(n, Step(n, e), n.next + 1, Step(n, e).secrets[n.next + 1]);
  }

  // ---- All steps ----

  /** A step keeps every recipient entitled exactly when it is harmless. Leaving,
      blocking, rotating, re-keying and deleting users always are. */
  lemma EntitlementStepIff(n: Net, e: Event)
    requires Sound(n) && AllEntitled(n)
    ensures AllEntitled(Step(n, e)) <==> Harmless(n, e)
  {
    if Outcome(n, e).Ok? {
      if IsPlain(n, e) {
        PlainStep(n, e);
        PlainIsSafer(n, Step(n, e));
        SaferKeeps(n, Step(n, e));
      } else {
        match e
        case RemoveUser(u) => DeletionKeepsEntitled(n, u);
        case GroupEvent(g, ge) => RemovalIff(n, g, ge, ge.user);
        case LeaveConnection(c, g) => LeaveKeepsEntitled(n, c, g);
        case BlockGroup(a, b) => BlockKeepsEntitled(n, a, b);
        case VoteOnChat(_, _, _, _) => CompleteApprovalIff(n, e);
        case AddSecret(_, _, _, _, _) => AddSecretIff(n, e);
      }
    }
  }

  ghost predicate AlwaysEntitled(n: Net, es: seq<Event>)
    decreases |es|
  {
    AllEntitled(n) && (es != [] ==> AlwaysEntitled(Step(n, es[0]), es[1..]))
  }

  ghost predicate AllHarmless(n: Net, es: seq<Event>)
    decreases |es|
  {
    es != [] ==> Harmless(n, es[0]) && AllHarmless(Step(n, es[0]), es[1..])
  }

  /** A whole history has only entitled recipients in all its states exactly when
      each of its steps was harmless at its moment. */
  lemma {:induction false} EntitledThroughoutIff(n: Net, es: seq<Event>)
    requires Sound(n) && AllEntitled(n)
    ensures AlwaysEntitled(n, es) <==> AllHarmless(n, es)
    decreases |es|
  {
    if es != [] {
      EntitlementStepIff(n, es[0]);
      SoundStep(n, es[0]);
      if AllEntitled(Step(n, es[0])) {
        EntitledThroughoutIff(Step(n, es[0]), es[1..]);
      } else {
        assert !AlwaysEntitled(Step(n, es[0]), es[1..]);
      }
    }
  }

  // ---- Two histories in which it is lost ----

  const TO_USER_2 := ChatRequest(true, Some("payload"), Some("iv"), [WrappedKey(2, "key")])

  function TrioChat(status: Status, votes: map<GroupId, Status>): Chat {
    Chat(4, 0, true, Bundle(Some("payload"), Some("iv"), map[2 := "key"]), Some(0), status, votes, PROPOSAL_LIFETIME)
  }

  const NONE_OF_TWO: map<GroupId, Status> := map[0 := Accepted, 1 := Pending, 2 := Pending]
  const ONE_OF_TWO: map<GroupId, Status> := map[0 := Accepted, 1 := Accepted, 2 := Pending]
  const BOTH: map<GroupId, Status> := map[0 := Accepted, 1 := Accepted, 2 := Accepted]

  /** Users 0, 1 and 2; groups 0 and 2 are user 0's, group 1 is user 1's and user 2
      has joined it; connection 4 joins the groups in `members`, and nothing has a key
      yet. */
  ghost predicate Trio(n: Net, members: set<GroupId>) {
    && n.users == {0, 1, 2} && n.groups.Keys == {0, 1, 2}
    && G.Users(n.groups[0]) == {0} && G.Users(n.groups[1]) == {1, 2} && G.Users(n.groups[2]) == {0}
    && G.Admins(n.groups[0]) == {0} && G.Admins(n.groups[1]) == {1}
    && n.conns == map[4 := members] && n.signals == map[] && n.secrets == map[]
  }

  lemma TrioProposed(n: Net)
    requires n.next == 3 && n.groups.Keys == {0, 1, 2} && n.blocks == {} && n.proposals == map[]
    ensures Propose(n, 0, [1, 2], 0) == Ok(n.(next := 4, proposals := map[3 :=
      Proposal(Formation, None, 0, Pending, NONE_OF_TWO, PROPOSAL_LIFETIME)]))
  {
    assert [1, 2][1..] == [2] && [2][1..] == [];
    assert TargetError(n, 0, []).None?;
    assert TargetError(n, 0, [2]).None?;
    assert TargetError(n, 0, [1, 2]).None?;
    assert FormationRoster(0, [1, 2]) == NONE_OF_TWO;
  }

  lemma TrioFirst(n: Net)
    requires 3 in n.proposals && n.proposals[3] == Proposal(Formation, None, 0, Pending, NONE_OF_TWO, PROPOSAL_LIFETIME)
    ensures Respond(n, 3, 1, true, 0) == Ok(n.(proposals := n.proposals[3 :=
      Proposal(Formation, None, 0, Pending, ONE_OF_TWO, PROPOSAL_LIFETIME)]))
  {
    assert NONE_OF_TWO[1 := Accepted] == ONE_OF_TWO;
    assert 2 in WithStatus(ONE_OF_TWO, Pending);
  }

  lemma TrioSecond(n: Net)
    requires n.next == 4 && n.conns == map[]
    requires 3 in n.proposals && n.proposals[3] == Proposal(Formation, None, 0, Pending, ONE_OF_TWO, PROPOSAL_LIFETIME)
    ensures var n' := Step(n, RespondToProposal(3, 2, true, 0));
      n' == n.(next := 5, conns := map[4 := {0, 1, 2}], proposals := n'.proposals)
  {
    assert ONE_OF_TWO[2 := Accepted] == BOTH;
    assert WithStatus(BOTH, Pending) == {} && WithStatus(BOTH, Accepted) == {0, 1, 2};
  }

  /** Three users and their groups; user 2 joins group 1 through a link. */
  lemma TrioFounded() returns (es: seq<Event>)
    ensures var n := Run(EMPTY, es);
      && n.next == 3 && n.users == {0, 1, 2}
      && n.groups == map[0 := G.Founded(0, 2), 1 := JOINED, 2 := G.Founded(0, 2)]
      && n.blocks == {} && n.proposals == map[] && n.conns == map[] && n.signals == map[] && n.secrets == map[] && n.chats == map[]
  {
    es := ThreeFounded();
    var n := Run(EMPTY, es);
    RunOneMore(EMPTY, es, GroupEvent(1, G.AddLink(None, None)));
    es := es + [GroupEvent(1, G.AddLink(None, None))];
    RunOneMore(EMPTY, es, GroupEvent(1, G.Join(0, 2, 0)));
    es := es + [GroupEvent(1, G.Join(0, 2, 0))];
    LinkJoined();
    assert Run(EMPTY, es).groups == n.groups[1 := JOINED];
  }

  /** Group 1 after user 2 has joined it. */
  const JOINED := G.Group(map[1 := G.Member(true, true, false), 2 := G.NEWCOMER], {}, {}, 2, false, map[0 := G.Link(None, 1, None)], map[], 1)

  lemma LinkJoined()
    ensures var linked := G.Step(G.Founded(1, 2), G.AddLink(None, None));
      G.Outcome(linked, G.Join(0, 2, 0)) == Ok(JOINED)
  {
    var linked := G.Step(G.Founded(1, 2), G.AddLink(None, None));
    assert linked.links[0 := G.Link(None, 1, None)] == map[0 := G.Link(None, 1, None)];
    assert linked.members[2 := G.NEWCOMER] == JOINED.members;
  }

  lemma ThreeFounded() returns (es: seq<Event>)
    ensures var n := Run(EMPTY, es);
      && n == EMPTY.(next := 3, users := {0, 1, 2}, groups := map[0 := G.Founded(0, 2), 1 := G.Founded(1, 2), 2 := G.Founded(0, 2)])
  {
    RunOne(EMPTY, AddUser(0));
    es := [AddUser(0)];
    RunOneMore(EMPTY, es, AddUser(1));
    es := es + [AddUser(1)];
    RunOneMore(EMPTY, es, AddUser(2));
    es := es + [AddUser(2)];
    RunOneMore(EMPTY, es, FoundGroup(0, 2));
    es := es + [FoundGroup(0, 2)];
    RunOneMore(EMPTY, es, FoundGroup(1, 2));
    es := es + [FoundGroup(1, 2)];
    RunOneMore(EMPTY, es, FoundGroup(0, 2));
    es := es + [FoundGroup(0, 2)];
  }

  lemma TrioPeople(n: Net)
    requires n.groups == map[0 := G.Founded(0, 2), 1 := JOINED, 2 := G.Founded(0, 2)]
    ensures G.Users(n.groups[0]) == {0} && G.Users(n.groups[1]) == {1, 2} && G.Users(n.groups[2]) == {0}
    ensures G.Admins(n.groups[0]) == {0} && G.Admins(n.groups[1]) == {1}
  {
  }

  lemma TrioConnected() returns (es: seq<Event>)
    ensures Trio(Run(EMPTY, es), {0, 1, 2}) && Run(EMPTY, es).next == 5 && Run(EMPTY, es).chats == map[]
  {
    es := TrioFounded();
    TrioPeople(Run(EMPTY, es));
    TrioProposed(Run(EMPTY, es));
    RunOneMore(EMPTY, es, ProposeConnection(0, [1, 2], 0));
    es := es + [ProposeConnection(0, [1, 2], 0)];
    TrioFirst(Run(EMPTY, es));
    RunOneMore(EMPTY, es, RespondToProposal(3, 1, true, 0));
    es := es + [RespondToProposal(3, 1, true, 0)];
    TrioSecond(Run(EMPTY, es));
    RunOneMore(EMPTY, es, RespondToProposal(3, 2, true, 0));
    es := es + [RespondToProposal(3, 2, true, 0)];
  }

  lemma TrioAsks(n: Net)
    requires Trio(n, {0, 1, 2}) && n.next == 5 && n.chats == map[]
    ensures Step(n, ProposeSignalChat(4, 0, TO_USER_2, Some(0), 0)) == n.(next := 6, chats := map[5 := TrioChat(Pending, NONE_OF_TWO)])
  {
    var members: set<GroupId> := {0, 1, 2};
    assert n.conns[4] == members && |members| == 3;
    assert ActiveSignals(n, 4) == {};
    assert OpeningVotes(members, 0) == NONE_OF_TWO;
    assert [WrappedKey(2, "key")][..0] == [];
    assert WrappedRows([WrappedKey(2, "key")]) == map[2 := "key"];
  }

  lemma TrioVotesOnce(n: Net)
    requires n.chats == map[5 := TrioChat(Pending, NONE_OF_TWO)]
    ensures Step(n, VoteOnChat(5, 1, true, 0)) == n.(chats := map[5 := TrioChat(Pending, ONE_OF_TWO)])
  {
    assert NONE_OF_TWO[1 := Accepted] == ONE_OF_TWO;
    assert 2 in WithStatus(ONE_OF_TWO, Pending);
  }

  /** The secret the last vote creates. */
  const TRIO_SECRET := Secret(OfSignalGroup(6), "payload", "iv", 0, map[2 := KeyRow("key", false, false)])

  lemma TrioCreates(n: Net)
    requires n.users == {0, 1, 2} && n.next == 6 && n.signals == map[] && n.secrets == map[]
    ensures CreateSignalGroup(n, TrioChat(Pending, BOTH))
         == Ok(n.(next := 8, signals := map[6 := SignalGroup(ByConnection(4), true)], secrets := map[7 := TRIO_SECRET]))
  {
    var chat := TrioChat(Pending, BOTH);
    assert 2 in chat.bundle.wrapped.Keys;
    assert BundleComplete(chat);
    assert chat.bundle.wrapped.Keys + {0} <= n.users;
    assert FreshRows(chat.bundle.wrapped) == map[2 := KeyRow("key", false, false)];
  }

  lemma TrioApproves(n: Net, members: set<GroupId>)
    requires Trio(n, members) && n.next == 6 && n.chats == map[5 := TrioChat(Pending, ONE_OF_TWO)]
    ensures var n' := Step(n, VoteOnChat(5, 2, true, 0));
      n' == n.(next := 8, chats := n'.chats, signals := map[6 := SignalGroup(ByConnection(4), true)], secrets := map[7 := TRIO_SECRET])
  {
    assert ONE_OF_TWO[2 := Accepted] == BOTH;
    assert WithStatus(BOTH, Pending) == {};
    TrioCreates(n);
  }

  /** Group 1 leaves; the chat and its votes stay. */
  lemma TrioLeft(n: Net)
    requires Trio(n, {0, 1, 2}) && n.next == 6 && n.chats == map[5 := TrioChat(Pending, NONE_OF_TWO)]
    ensures var n' := Step(n, LeaveConnection(4, 1));
      Trio(n', {0, 2}) && n'.next == 6 && n'.chats == n.chats
  {
    RemovalIsEviction(n, 4, 1);
    TrioEvicted(n);
  }

  lemma TrioDissolvesNothing(n: Net)
    requires n.conns == map[4 := {0, 1, 2}]
    ensures Dissolved(n, {4}, 1) == {}
  {
    var rest: set<GroupId> := {0, 2};
    assert n.conns[4] - {1} == rest && |rest| == 2;
  }

  lemma TrioMembersAfter(n: Net)
    requires n.conns == map[4 := {0, 1, 2}] && Dissolved(n, {4}, 1) == {}
    ensures ConnsAfter(n, {4}, 1) == map[4 := {0, 2}]
  {
    var rest: set<GroupId> := {0, 2};
    assert n.conns[4] - {1} == rest;
  }

  lemma SignalsStay(n: Net, cs: set<ConnId>, g: GroupId)
    requires Dissolved(n, cs, g) == {}
    ensures SignalsAfter(n, cs, g) == n.signals
  {
  }

  lemma TrioEvicted(n: Net)
    requires Trio(n, {0, 1, 2})
    ensures var n' := Evicted(n, {4}, 1);
      Trio(n', {0, 2}) && (n.chats == map[5 := TrioChat(Pending, NONE_OF_TWO)] ==> n'.chats == n.chats)
  {
    TrioDissolvesNothing(n);
    TrioMembersAfter(n);
    SignalsStay(n, {4}, 1);
    assert SecretsAfter(n, {4}, 1) == map[];
  }

  lemma StrangerHolds(n: Net, u: UserId)
    requires 4 in n.conns && 7 in n.secrets && ConnectionOf(n, n.secrets[7]) == Some(4) && u in n.secrets[7].keys
    requires forall g :: g in n.conns[4] ==> u !in UsersOf(n, g)
    ensures !AllEntitled(n)
  {
    assert !Entitled(n, 4, u);
  }

  /** A group that has left still votes on open chats, and the approving vote gives
      its user a fresh key to a secret of the connection it is no longer in. */
  lemma DepartedGroupReceivesKeys() returns (es: seq<Event>)
    ensures var n := Run(EMPTY, es);
      && n.conns == map[4 := {0, 2}] && n.secrets == map[7 := TRIO_SECRET] && ConnectionOf(n, TRIO_SECRET) == Some(4)
      && UsersOf(n, 1) == {1, 2} && !AllEntitled(n)
  {
    es := TrioConnected();
    TrioAsks(Run(EMPTY, es));
    RunOneMore(EMPTY, es, ProposeSignalChat(4, 0, TO_USER_2, Some(0), 0));
    es := es + [ProposeSignalChat(4, 0, TO_USER_2, Some(0), 0)];
    TrioLeft(Run(EMPTY, es));
    RunOneMore(EMPTY, es, LeaveConnection(4, 1));
    es := es + [LeaveConnection(4, 1)];
    TrioVotesOnce(Run(EMPTY, es));
    RunOneMore(EMPTY, es, VoteOnChat(5, 1, true, 0));
    es := es + [VoteOnChat(5, 1, true, 0)];
    TrioApproves(Run(EMPTY, es), {0, 2});
    RunOneMore(EMPTY, es, VoteOnChat(5, 2, true, 0));
    es := es + [VoteOnChat(5, 2, true, 0)];
    StrangerHolds(Run(EMPTY, es), 2);
  }

  /** User 2 leaves group 1, which keeps its admin. */
  lemma TrioOneLeaves(n: Net)
    requires n.groups.Keys == {0, 1, 2} && G.Users(n.groups[1]) == {1, 2} && G.Admins(n.groups[1]) == {1}
    requires n.signals == map[6 := SignalGroup(ByConnection(4), true)] && n.secrets == map[7 := TRIO_SECRET]
    ensures var n' := Step(n, GroupEvent(1, G.Leave(2)));
      && n' == n.(groups := n'.groups) && n'.groups == n.groups[1 := n'.groups[1]] && 1 in n'.groups
      && G.Users(n'.groups[1]) == {1} && G.Admins(n'.groups[1]) == {1}
  {
    var n' := Step(n, GroupEvent(1, G.Leave(2)));
    assert 2 !in G.Admins(n.groups[1]);
    assert n'.groups[1] == G.RemoveMember(n.groups[1], 2);
    assert n'.secrets == n.secrets;
  }

  /** Group 1 leaves; the keys of its users of that moment go. */
  lemma TrioLeavesLater(n: Net)
    requires n.conns == map[4 := {0, 1, 2}]
    requires n.groups.Keys == {0, 1, 2} && G.Users(n.groups[0]) == {0} && G.Users(n.groups[1]) == {1} && G.Users(n.groups[2]) == {0}
    requires n.signals == map[6 := SignalGroup(ByConnection(4), true)] && n.secrets == map[7 := TRIO_SECRET]
    ensures var n' := Step(n, LeaveConnection(4, 1));
      n'.conns == map[4 := {0, 2}] && n'.groups == n.groups && n'.signals == n.signals && n'.secrets == n.secrets
  {
    RemovalIsEviction(n, 4, 1);
    TrioEvictedLater(n);
  }

  lemma TrioEvictedLater(n: Net)
    requires n.conns == map[4 := {0, 1, 2}]
    requires n.groups.Keys == {0, 1, 2} && G.Users(n.groups[0]) == {0} && G.Users(n.groups[1]) == {1} && G.Users(n.groups[2]) == {0}
    requires n.signals == map[6 := SignalGroup(ByConnection(4), true)] && n.secrets == map[7 := TRIO_SECRET]
    ensures ConnsAfter(n, {4}, 1) == map[4 := {0, 2}] && SignalsAfter(n, {4}, 1) == n.signals && SecretsAfter(n, {4}, 1) == n.secrets
  {
    TrioDissolvesNothing(n);
    TrioMembersAfter(n);
    SignalsStay(n, {4}, 1);
    TrioKeyStays(n);
  }

  lemma TrioKeyStays(n: Net)
    requires n.conns == map[4 := {0, 1, 2}] && Dissolved(n, {4}, 1) == {}
    requires n.groups.Keys == {0, 1, 2} && G.Users(n.groups[0]) == {0} && G.Users(n.groups[1]) == {1} && G.Users(n.groups[2]) == {0}
    requires n.signals == map[6 := SignalGroup(ByConnection(4), true)] && n.secrets == map[7 := TRIO_SECRET]
    ensures SecretsAfter(n, {4}, 1) == n.secrets
  {
    TrioRowStays(n);
    assert SecretAfter(n, {4}, 1, TRIO_SECRET) == TRIO_SECRET;
  }

  lemma TrioRowStays(n: Net)
    requires n.conns == map[4 := {0, 1, 2}]
    requires n.groups.Keys == {0, 1, 2} && G.Users(n.groups[0]) == {0} && G.Users(n.groups[2]) == {0}
    ensures RevokeKeys(TRIO_SECRET.keys, {1}, SurvivingUsers(n, 4, 1)) == TRIO_SECRET.keys
  {
    assert 2 !in SurvivingUsers(n, 4, 1);
  }

  /** A user who leaves a group keeps the key to the secrets of the group's
      connections, is not even flagged, and keeps it after the group, which has had
      its admin all along, has left too. */
  lemma FormerMemberKeepsKeys() returns (es: seq<Event>)
    ensures var n := Run(EMPTY, es);
      && n.conns == map[4 := {0, 2}] && n.secrets == map[7 := TRIO_SECRET] && ConnectionOf(n, TRIO_SECRET) == Some(4)
      && (forall g :: 2 !in UsersOf(n, g)) && AdminsOf(n, 1) == {1} && !AllEntitled(n)
  {
    es := TrioConnected();
    TrioAsks(Run(EMPTY, es));
    RunOneMore(EMPTY, es, ProposeSignalChat(4, 0, TO_USER_2, Some(0), 0));
    es := es + [ProposeSignalChat(4, 0, TO_USER_2, Some(0), 0)];
    TrioVotesOnce(Run(EMPTY, es));
    RunOneMore(EMPTY, es, VoteOnChat(5, 1, true, 0));
    es := es + [VoteOnChat(5, 1, true, 0)];
    TrioApproves(Run(EMPTY, es), {0, 1, 2});
    RunOneMore(EMPTY, es, VoteOnChat(5, 2, true, 0));
    es := es + [VoteOnChat(5, 2, true, 0)];
    TrioOneLeaves(Run(EMPTY, es));
    RunOneMore(EMPTY, es, GroupEvent(1, G.Leave(2)));
    es := es + [GroupEvent(1, G.Leave(2))];
    TrioLeavesLater(Run(EMPTY, es));
    RunOneMore(EMPTY, es, LeaveConnection(4, 1));
    es := es + [LeaveConnection(4, 1)];
    StrangerHolds(Run(EMPTY, es), 2);
  }
}
