// What removing a group from connections does to every table, stated for all
// connections at once, and the proof that taking them one by one does the same.
module Eviction {
  import opened Prelude
  import opened Network

  /** The connections among `cs` that are left with fewer than two members. */
  ghost function Dissolved(n: Net, cs: set<ConnId>, g: GroupId): set<ConnId> {
    set c | c in cs && c in n.conns && |n.conns[c] - {g}| <= 1
  }

  ghost predicate In(c: Option<ConnId>, cs: set<ConnId>) {
    c.Some? && c.value in cs
  }

  ghost function OwnerConnection(owner: SignalOwner): Option<ConnId> {
    if owner.ByConnection? then Some(owner.connection) else None
  }

  ghost function ConnsAfter(n: Net, cs: set<ConnId>, g: GroupId): map<ConnId, set<GroupId>> {
    map c | c in n.conns && c !in Dissolved(n, cs, g) :: if c in cs then n.conns[c] - {g} else n.conns[c]
  }

  ghost function ProposalsAfter(n: Net, cs: set<ConnId>, g: GroupId): map<PropId, Proposal> {
    map p | p in n.proposals
        && !In(n.proposals[p].connection, Dissolved(n, cs, g))
        && !(In(n.proposals[p].connection, cs) && n.proposals[p].status == Pending)
      :: n.proposals[p]
  }

  ghost function ChatsAfter(n: Net, cs: set<ConnId>, g: GroupId): map<ChatId, Chat> {
    map h | h in n.chats && n.chats[h].connection !in Dissolved(n, cs, g) :: n.chats[h]
  }

  ghost function SignalsAfter(n: Net, cs: set<ConnId>, g: GroupId): map<SignalId, SignalGroup> {
    map sg | sg in n.signals && !In(OwnerConnection(n.signals[sg].owner), Dissolved(n, cs, g)) :: n.signals[sg]
  }

  ghost function SecretAfter(n: Net, cs: set<ConnId>, g: GroupId, s: Secret): Secret {
    var c := ConnectionOf(n, s);
    if In(c, cs) then s.(keys := RevokeKeys(s.keys, UsersOf(n, g), SurvivingUsers(n, c.value, g))) else s
  }

  ghost function SecretsAfter(n: Net, cs: set<ConnId>, g: GroupId): map<SecretId, Secret> {
    map s | s in n.secrets && !In(ConnectionOf(n, n.secrets[s]), Dissolved(n, cs, g)) :: SecretAfter(n, cs, g, n.secrets[s])
  }

  /** The exact effect of removing `g` from each connection in `cs`: members lose
      only `g`; a connection left with fewer than two members disappears with its
      proposals, chats, signal groups and secrets; a surviving one loses its
      pending proposals and the departed users' keys, and has the keys of the
      users of its other groups flagged for rotation. Nothing else changes. */
  ghost function Evicted(n: Net, cs: set<ConnId>, g: GroupId): Net {
    Net(n.next, n.users, n.groups, n.blocks, ConnsAfter(n, cs, g), ProposalsAfter(n, cs, g), ChatsAfter(n, cs, g),
        SignalsAfter(n, cs, g), SecretsAfter(n, cs, g))
  }

  /** Leaving one connection, step by step, has exactly that effect on it. */
  lemma RemovalIsEviction(n: Net, c: ConnId, g: GroupId)
    requires c in n.conns
    ensures RemoveFromConnection(n, c, g) == Evicted(n, {c}, g)
  {
    var n1 := RevokeForGroup(n, c, g);
    var n2 := DeleteMember(n1, c, g);
    assert MembersOf(n2, c) == n.conns[c] - {g};
    if |n.conns[c] - {g}| <= 1 {
      assert Dissolved(n, {c}, g) == {c};
      RemovalDissolves(n, n2, c, g);
    } else {
      assert Dissolved(n, {c}, g) == {};
      RemovalKeeps(n, n2, c, g);
    }
  }

  lemma DissolvedConns(n: Net, n2: Net, c: ConnId, g: GroupId)
    requires Dissolved(n, {c}, g) == {c} && n2.conns == n.conns[c := MembersOf(n, c) - {g}]
    ensures DeleteConnection(n2, c).conns == ConnsAfter(n, {c}, g)
  {
  }

  lemma DissolvedChats(n: Net, n2: Net, c: ConnId, g: GroupId)
    requires Dissolved(n, {c}, g) == {c} && n2.chats == n.chats
    ensures DeleteConnection(n2, c).chats == ChatsAfter(n, {c}, g)
  {
  }

  lemma DissolvedSignals(n: Net, n2: Net, c: ConnId, g: GroupId)
    requires Dissolved(n, {c}, g) == {c} && n2.signals == n.signals
    ensures DeleteConnection(n2, c).signals == SignalsAfter(n, {c}, g)
  {
  }

  lemma DissolvedProposals(n: Net, n2: Net, c: ConnId, g: GroupId)
    requires Dissolved(n, {c}, g) == {c} && n2.proposals == n.proposals
    ensures DeleteConnection(n2, c).proposals == ProposalsAfter(n, {c}, g)
  {
  }

  lemma RemovalDissolves(n: Net, n2: Net, c: ConnId, g: GroupId)
    requires c in n.conns && Dissolved(n, {c}, g) == {c}
    requires n2 == DeleteMember(RevokeForGroup(n, c, g), c, g)
    ensures DeleteConnection(n2, c) == Evicted(n, {c}, g)
  {
    DissolvedConns(n, n2, c, g);
    DissolvedChats(n, n2, c, g);
    DissolvedSignals(n, n2, c, g);
    DissolvedProposals(n, n2, c, g);
    DissolvedSecrets(n, n2, c, g);
  }

  /** Revoking and deleting the member row moves no secret to another owner and
      changes no secret of another connection. */
  lemma RevocationKeepsOwners(n: Net, n2: Net, c: ConnId, g: GroupId)
    requires n2 == DeleteMember(RevokeForGroup(n, c, g), c, g)
    ensures n2.secrets.Keys == n.secrets.Keys
    ensures forall s :: s in n.secrets ==> ConnectionOf(n2, n2.secrets[s]) == ConnectionOf(n, n.secrets[s])
    ensures forall s :: s in n.secrets && ConnectionOf(n, n.secrets[s]) != Some(c) ==> n2.secrets[s] == n.secrets[s]
  {
    forall s | s in n.secrets
      ensures ConnectionOf(n2, n2.secrets[s]) == ConnectionOf(n, n.secrets[s])
    {
      assert n2.secrets[s].owner == n.secrets[s].owner;
    }
  }

  lemma DissolvedSecrets(n: Net, n2: Net, c: ConnId, g: GroupId)
    requires c in n.conns && Dissolved(n, {c}, g) == {c}
    requires n2 == DeleteMember(RevokeForGroup(n, c, g), c, g)
    ensures DeleteConnection(n2, c).secrets == SecretsAfter(n, {c}, g)
  {
    RevocationKeepsOwners(n, n2, c, g);
    SecretsOutside(n, n2, c, g);
  }

  lemma SecretsOutside(n: Net, n2: Net, c: ConnId, g: GroupId)
    requires Dissolved(n, {c}, g) == {c} && n2.secrets.Keys == n.secrets.Keys
    requires forall s :: s in n.secrets ==> ConnectionOf(n2, n2.secrets[s]) == ConnectionOf(n, n.secrets[s])
    requires forall s :: s in n.secrets && ConnectionOf(n, n.secrets[s]) != Some(c) ==> n2.secrets[s] == n.secrets[s]
    ensures DeleteConnection(n2, c).secrets == SecretsAfter(n, {c}, g)
  {
    var done, want := DeleteConnection(n2, c).secrets, SecretsAfter(n, {c}, g);
    forall s | s in n.secrets
      ensures s in done <==> s in want
      ensures s in done ==> done[s] == want[s]
    {
      assert In(ConnectionOf(n, n.secrets[s]), {c}) <==> ConnectionOf(n, n.secrets[s]) == Some(c);
    }
  }

  lemma KeptSecrets(n: Net, c: ConnId, g: GroupId)
    requires Dissolved(n, {c}, g) == {}
    ensures RevokeForGroup(n, c, g).secrets == SecretsAfter(n, {c}, g)
  {
    var done, want := RevokeForGroup(n, c, g).secrets, SecretsAfter(n, {c}, g);
    forall s | s in n.secrets
      ensures s in want && done[s] == want[s]
    {
      assert In(ConnectionOf(n, n.secrets[s]), {c}) <==> ConnectionOf(n, n.secrets[s]) == Some(c);
    }
  }

  lemma KeptProposals(n: Net, n2: Net, c: ConnId, g: GroupId)
    requires Dissolved(n, {c}, g) == {} && n2.proposals == n.proposals
    ensures DropPendingProposals(n2, c).proposals == ProposalsAfter(n, {c}, g)
  {
  }

  lemma KeptRows(n: Net, c: ConnId, g: GroupId)
    requires c in n.conns && Dissolved(n, {c}, g) == {}
    ensures n.conns[c := n.conns[c] - {g}] == ConnsAfter(n, {c}, g)
    ensures n.chats == ChatsAfter(n, {c}, g)
    ensures n.signals == SignalsAfter(n, {c}, g)
  {
  }

  lemma RemovalKeeps(n: Net, n2: Net, c: ConnId, g: GroupId)
    requires c in n.conns && Dissolved(n, {c}, g) == {}
    requires n2 == DeleteMember(RevokeForGroup(n, c, g), c, g)
    ensures DropPendingProposals(n2, c) == Evicted(n, {c}, g)
  {
    KeptRows(n, c, g);
    KeptProposals(n, n2, c, g);
    KeptSecrets(n, c, g);
  }

  lemma DissolvedComposes(n: Net, cs: set<ConnId>, ds: set<ConnId>, g: GroupId, n1: Net)
    requires cs !! ds && n1 == Evicted(n, cs, g)
    ensures Dissolved(n, cs + ds, g) == Dissolved(n, cs, g) + Dissolved(n1, ds, g)
    ensures forall c :: c in ds ==> MembersOf(n1, c) == MembersOf(n, c) && (c in n1.conns <==> c in n.conns)
  {
  }

  lemma ConnsCompose(n: Net, cs: set<ConnId>, ds: set<ConnId>, g: GroupId, n1: Net)
    requires cs !! ds && n1 == Evicted(n, cs, g)
    ensures ConnsAfter(n1, ds, g) == ConnsAfter(n, cs + ds, g)
  {
    DissolvedComposes(n, cs, ds, g, n1);
  }

  lemma ProposalsCompose(n: Net, cs: set<ConnId>, ds: set<ConnId>, g: GroupId, n1: Net)
    requires cs !! ds && n1 == Evicted(n, cs, g)
    ensures ProposalsAfter(n1, ds, g) == ProposalsAfter(n, cs + ds, g)
  {
    DissolvedComposes(n, cs, ds, g, n1);
    var stepwise, atOnce := ProposalsAfter(n1, ds, g), ProposalsAfter(n, cs + ds, g);
    forall p | p in n.proposals
      ensures p in stepwise <==> p in atOnce
    {
      var c := n.proposals[p].connection;
      assert In(c, cs + ds) <==> In(c, cs) || In(c, ds);
    }
    assert stepwise.Keys == atOnce.Keys;
  }

  lemma ChatsCompose(n: Net, cs: set<ConnId>, ds: set<ConnId>, g: GroupId, n1: Net)
    requires cs !! ds && n1 == Evicted(n, cs, g)
    ensures ChatsAfter(n1, ds, g) == ChatsAfter(n, cs + ds, g)
    ensures SignalsAfter(n1, ds, g) == SignalsAfter(n, cs + ds, g)
  {
    DissolvedComposes(n, cs, ds, g, n1);
  }

  lemma SecretsCompose(n: Net, cs: set<ConnId>, ds: set<ConnId>, g: GroupId, n1: Net)
    requires cs !! ds && n1 == Evicted(n, cs, g)
    ensures SecretsAfter(n1, ds, g) == SecretsAfter(n, cs + ds, g)
  {
    DissolvedComposes(n, cs, ds, g, n1);
    forall s | s in n1.secrets
      ensures ConnectionOf(n1, n1.secrets[s]) == ConnectionOf(n, n.secrets[s])
      ensures SecretAfter(n1, ds, g, n1.secrets[s]) == SecretAfter(n, cs + ds, g, n.secrets[s])
    {
      var c := ConnectionOf(n, n.secrets[s]);
      assert n1.secrets[s].owner == n.secrets[s].owner;
      if In(c, ds) {
        SurvivorsUnchanged(n, cs, ds, g, n1, c.value);
      }
    }
  }

  lemma SurvivorsUnchanged(n: Net, cs: set<ConnId>, ds: set<ConnId>, g: GroupId, n1: Net, c: ConnId)
    requires cs !! ds && n1 == Evicted(n, cs, g) && c in ds
    ensures SurvivingUsers(n1, c, g) == SurvivingUsers(n, c, g)
  {
    DissolvedComposes(n, cs, ds, g, n1);
    assert forall h :: UsersOf(n1, h) == UsersOf(n, h);
  }

  /** Evicting from disjoint sets of connections one after the other is evicting
      from all of them: no eviction disturbs another. */
  lemma EvictionsCompose(n: Net, cs: set<ConnId>, ds: set<ConnId>, g: GroupId, n1: Net)
    requires cs !! ds && n1 == Evicted(n, cs, g)
    ensures Evicted(n1, ds, g) == Evicted(n, cs + ds, g)
  {
    ConnsCompose(n, cs, ds, g, n1);
    ProposalsCompose(n, cs, ds, g, n1);
    ChatsCompose(n, cs, ds, g, n1);
    SecretsCompose(n, cs, ds, g, n1);
  }

  /** The listed connections exist and none is listed twice. */
  ghost predicate ListsConnections(n: Net, cs: seq<ConnId>) {
    && (forall i :: 0 <= i < |cs| ==> cs[i] in n.conns)
    && (forall i, j :: 0 <= i < j < |cs| ==> cs[i] != cs[j])
  }

  lemma {:induction false} EvictEachIsEviction(n: Net, cs: seq<ConnId>, g: GroupId)
    requires ListsConnections(n, cs)
    ensures EvictEach(n, cs, g) == Evicted(n, Listed(cs), g)
    decreases |cs|
  {
    if cs == [] {
      NoEviction(n, g);
    } else {
      var n1 := RemoveFromConnection(n, cs[0], g);
      RemovalIsEviction(n, cs[0], g);
      OthersSurvive(n, cs, g, n1);
      EvictEachIsEviction(n1, cs[1..], g);
      FirstThenRest(n, cs, g, n1);
    }
  }

  lemma FirstThenRest(n: Net, cs: seq<ConnId>, g: GroupId, n1: Net)
    requires ListsConnections(n, cs) && cs != [] && n1 == Evicted(n, {cs[0]}, g)
    ensures Evicted(n1, Listed(cs[1..]), g) == Evicted(n, Listed(cs), g)
  {
    assert {cs[0]} !! Listed(cs[1..]);
    assert Listed(cs) == {cs[0]} + Listed(cs[1..]);
    EvictionsCompose(n, {cs[0]}, Listed(cs[1..]), g, n1);
  }

  lemma OthersSurvive(n: Net, cs: seq<ConnId>, g: GroupId, n1: Net)
    requires ListsConnections(n, cs) && cs != [] && n1 == Evicted(n, {cs[0]}, g)
    ensures ListsConnections(n1, cs[1..])
  {
    assert forall c :: c in n.conns && c != cs[0] ==> c in n1.conns;
  }

  lemma NoEviction(n: Net, g: GroupId)
    ensures Evicted(n, {}, g) == n
  {
    assert Dissolved(n, {}, g) == {};
    assert ConnsAfter(n, {}, g) == n.conns;
    assert ProposalsAfter(n, {}, g) == n.proposals;
    assert ChatsAfter(n, {}, g) == n.chats;
    assert SignalsAfter(n, {}, g) == n.signals;
    assert SecretsAfter(n, {}, g) == n.secrets;
  }

  /** Blocking evicts the blocked group from exactly the shared connections, all
      of them, whatever their number, and records the block. */
  lemma BlockIsEviction(n: Net, a: GroupId, b: GroupId)
    requires Block(n, a, b).Ok?
    ensures Block(n, a, b).value == Evicted(n.(blocks := n.blocks + {(a, b)}), SharedConnections(n, a, b), b)
  {
    var n1 := n.(blocks := n.blocks + {(a, b)});
    var cs := RowOrder(SharedConnections(n, a, b));
    RowOrderLists(SharedConnections(n, a, b));
    assert forall i :: 0 <= i < |cs| ==> cs[i] in cs;
    EvictEachIsEviction(n1, cs, b);
    assert Listed(cs) == SharedConnections(n, a, b);
  }

  /** The effect of a block on connections, row by row: a shared connection of
      three or more loses exactly the blocked group, one of two is dissolved, any
      other is untouched. */
  lemma BlockOnConnections(n: Net, a: GroupId, b: GroupId, c: ConnId)
    requires Block(n, a, b).Ok? && c in n.conns
    ensures var n' := Block(n, a, b).value;
      if a in n.conns[c] && b in n.conns[c]
      then (if |n.conns[c]| >= 3 then c in n'.conns && n'.conns[c] == n.conns[c] - {b} else c !in n'.conns)
      else c in n'.conns && n'.conns[c] == n.conns[c]
  {
    BlockIsEviction(n, a, b);
    if b in n.conns[c] {
      assert n.conns[c] == n.conns[c] - {b} + {b};
    }
  }

  /** ... on proposals: those of a shared connection go when they are pending or
      when the connection goes; every other row stays as it is. */
  lemma BlockOnProposals(n: Net, a: GroupId, b: GroupId, p: PropId)
    requires Block(n, a, b).Ok? && p in n.proposals
    ensures var n' := Block(n, a, b).value;
      var c := n.proposals[p].connection;
      if c.Some? && c.value in n.conns && a in n.conns[c.value] && b in n.conns[c.value]
         && (n.proposals[p].status == Pending || |n.conns[c.value]| <= 2)
      then p !in n'.proposals
      else p in n'.proposals && n'.proposals[p] == n.proposals[p]
  {
    BlockIsEviction(n, a, b);
    var c := n.proposals[p].connection;
    if In(c, SharedConnections(n, a, b)) {
      assert n.conns[c.value] == n.conns[c.value] - {b} + {b};
    }
  }

  /** What is left of a secret's rows when `g` goes from connection `c`: its users'
      rows go; every other row keeps its key and its re-key flag, and waits for a
      rotation exactly when it did before or its user is in a group that remains. */
  ghost predicate RowsWithout(n: Net, c: ConnId, g: GroupId, before: map<UserId, KeyRow>, after: map<UserId, KeyRow>) {
    && (forall u :: u in after <==> u in before && !(g in n.groups && u in n.groups[g].members))
    && (forall u :: u in after ==>
          && after[u].dek == before[u].dek && after[u].rekeyNeeded == before[u].rekeyNeeded
          && (after[u].rotationPending <==>
                before[u].rotationPending
                || exists h :: c in n.conns && h in n.conns[c] && h != g && h in n.groups && u in n.groups[h].members))
  }

  lemma SurvivorIff(n: Net, c: ConnId, g: GroupId, u: UserId)
    ensures u in SurvivingUsers(n, c, g) <==>
      exists h :: c in n.conns && h in n.conns[c] && h != g && h in n.groups && u in n.groups[h].members
  {
    if h :| c in n.conns && h in n.conns[c] && h != g && h in n.groups && u in n.groups[h].members {
      assert h in MembersOf(n, c) && u in UsersOf(n, h);
    }
  }

  lemma RevokedRows(n: Net, c: ConnId, g: GroupId, before: map<UserId, KeyRow>)
    ensures RowsWithout(n, c, g, before, RevokeKeys(before, UsersOf(n, g), SurvivingUsers(n, c, g)))
  {
    var after := RevokeKeys(before, UsersOf(n, g), SurvivingUsers(n, c, g));
    forall u | u in after
      ensures after[u].rotationPending <==>
        before[u].rotationPending
        || exists h :: c in n.conns && h in n.conns[c] && h != g && h in n.groups && u in n.groups[h].members
    {
      SurvivorIff(n, c, g, u);
    }
  }

  /** The secret belongs to the connection through its signal group. */
  predicate SecretOf(n: Net, s: SecretId, c: ConnId) {
    && s in n.secrets && n.secrets[s].owner.OfSignalGroup? && n.secrets[s].owner.signal in n.signals
    && n.signals[n.secrets[s].owner.signal].owner == ByConnection(c)
  }

  lemma EvictionOnKeys(n: Net, cs: set<ConnId>, g: GroupId, c: ConnId, s: SecretId)
    requires c in cs && SecretOf(n, s, c) && c !in Dissolved(n, cs, g)
    ensures var n' := Evicted(n, cs, g);
      && s in n'.secrets && n'.secrets[s] == n.secrets[s].(keys := n'.secrets[s].keys)
      && RowsWithout(n, c, g, n.secrets[s].keys, n'.secrets[s].keys)
  {
    RevokedRows(n, c, g, n.secrets[s].keys);
  }

  /** A departure from a connection of three or more, on the connection's secrets:
      the rows of the leaving group's users go, the others' stay and are flagged.
      From a connection of two the secrets go with the connection. */
  lemma DepartureOnKeys(n: Net, c: ConnId, g: GroupId, s: SecretId)
    requires c in n.conns && g in n.conns[c] && SecretOf(n, s, c)
    ensures Leave(n, c, g).Ok?
    ensures var n' := Leave(n, c, g).value;
      if |n.conns[c]| >= 3 then
        && c in n'.conns && n'.conns[c] == n.conns[c] - {g}
        && s in n'.secrets && n'.secrets[s] == n.secrets[s].(keys := n'.secrets[s].keys)
        && RowsWithout(n, c, g, n.secrets[s].keys, n'.secrets[s].keys)
      else c !in n'.conns && s !in n'.secrets
  {
    RemovalIsEviction(n, c, g);
    assert n.conns[c] == n.conns[c] - {g} + {g};
    if |n.conns[c]| >= 3 {
      EvictionOnKeys(n, {c}, g, c, s);
    }
  }

  /** A departure, on everything else: the connection loses the group or, having had
      no third member, goes; with it go its proposals, chats and signal groups, and
      from one that stays only the pending proposals. Nothing else is touched. */
  lemma DepartureOnRows(n: Net, c: ConnId, g: GroupId)
    requires c in n.conns && g in n.conns[c]
    ensures var n', gone := RemoveFromConnection(n, c, g), |n.conns[c]| <= 2;
      && Leave(n, c, g) == Ok(n')
      && n'.next == n.next && n'.users == n.users && n'.groups == n.groups && n'.blocks == n.blocks
      && n'.conns == (if gone then n.conns - {c} else n.conns[c := n.conns[c] - {g}])
      && (forall p :: p in n'.proposals <==>
            p in n.proposals && !(n.proposals[p].connection == Some(c) && (gone || n.proposals[p].status == Pending)))
      && (forall p :: p in n'.proposals ==> n'.proposals[p] == n.proposals[p])
      && (forall h :: h in n'.chats <==> h in n.chats && !(n.chats[h].connection == c && gone))
      && (forall h :: h in n'.chats ==> n'.chats[h] == n.chats[h])
      && (forall sg :: sg in n'.signals <==> sg in n.signals && !(n.signals[sg].owner == ByConnection(c) && gone))
      && (forall sg :: sg in n'.signals ==> n'.signals[sg] == n.signals[sg])
  {
    RemovalIsEviction(n, c, g);
    assert n.conns[c] == n.conns[c] - {g} + {g};
    assert Dissolved(n, {c}, g) == if |n.conns[c]| <= 2 then {c} else {};
  }

  /** ... and a block on wrapped keys: a shared connection of three or more loses the
      rows of the blocked group's users and has the others' flagged, as in a
      departure; a secret of a dissolved connection goes; one elsewhere stays. */
  lemma BlockOnKeys(n: Net, a: GroupId, b: GroupId, c: ConnId, s: SecretId)
    requires Block(n, a, b).Ok? && c in n.conns && SecretOf(n, s, c)
    ensures var n' := Block(n, a, b).value;
      if !(a in n.conns[c] && b in n.conns[c]) then s in n'.secrets && n'.secrets[s] == n.secrets[s]
      else if |n.conns[c]| < 3 then s !in n'.secrets
      else
        && s in n'.secrets && n'.secrets[s] == n.secrets[s].(keys := n'.secrets[s].keys)
        && RowsWithout(n, c, b, n.secrets[s].keys, n'.secrets[s].keys)
  {
    BlockIsEviction(n, a, b);
    var n1 := n.(blocks := n.blocks + {(a, b)});
    if a in n.conns[c] && b in n.conns[c] {
      assert n.conns[c] == n.conns[c] - {b} + {b};
      if |n.conns[c]| >= 3 {
        EvictionOnKeys(n1, SharedConnections(n, a, b), b, c, s);
      }
    }
  }

  /** A connection of the two groups and nobody else. */
  ghost predicate GoesWithBlock(n: Net, a: GroupId, b: GroupId, c: ConnId) {
    c in n.conns && a in n.conns[c] && b in n.conns[c] && |n.conns[c]| <= 2
  }

  lemma DissolvedByBlock(n: Net, a: GroupId, b: GroupId, c: ConnId)
    ensures c in Dissolved(n, SharedConnections(n, a, b), b) <==> GoesWithBlock(n, a, b, c)
  {
    if c in n.conns && b in n.conns[c] {
      assert n.conns[c] == n.conns[c] - {b} + {b};
    }
  }

  /** ... on chats: those of a connection of the two and nobody else go ... */
  lemma BlockOnChats(n: Net, a: GroupId, b: GroupId, h: ChatId)
    requires Block(n, a, b).Ok?
    ensures var n' := Block(n, a, b).value;
      if h in n.chats && !GoesWithBlock(n, a, b, n.chats[h].connection) then h in n'.chats && n'.chats[h] == n.chats[h]
      else h !in n'.chats
  {
    BlockIsEviction(n, a, b);
    if h in n.chats {
      DissolvedByBlock(n, a, b, n.chats[h].connection);
    }
  }

  /** ... and on signal groups. */
  lemma BlockOnSignals(n: Net, a: GroupId, b: GroupId, sg: SignalId)
    requires Block(n, a, b).Ok?
    ensures var n' := Block(n, a, b).value;
      if sg in n.signals && !(n.signals[sg].owner.ByConnection? && GoesWithBlock(n, a, b, n.signals[sg].owner.connection))
      then sg in n'.signals && n'.signals[sg] == n.signals[sg]
      else sg !in n'.signals
  {
    BlockIsEviction(n, a, b);
    if sg in n.signals && n.signals[sg].owner.ByConnection? {
      DissolvedByBlock(n, a, b, n.signals[sg].owner.connection);
    }
  }

  /** A block leaves the secrets that belong to no connection as they are. */
  lemma BlockElsewhere(n: Net, a: GroupId, b: GroupId, s: SecretId)
    requires Block(n, a, b).Ok? && s in n.secrets && forall c :: !SecretOf(n, s, c)
    ensures s in Block(n, a, b).value.secrets && Block(n, a, b).value.secrets[s] == n.secrets[s]
  {
    BlockIsEviction(n, a, b);
    if ConnectionOf(n, n.secrets[s]).Some? {
      assert SecretOf(n, s, ConnectionOf(n, n.secrets[s]).value);
    }
  }
}
