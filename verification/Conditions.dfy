// When each step on connections, their proposals, their chats, secrets and users is
// taken, spelled out on the tables, and the deadlines over whole histories
// (internal/database/connections.go, groups.go, encrypted_secrets.go, users.go).
module Conditions {
  import opened Prelude
  import opened Network
  import opened Eviction
  import opened Invariants
  import opened Consensus
  import opened Custody
  import opened Chats
  import opened Users
  import G = Groups

  // ---- Opening ----

  /** Neither group blocks the other. */
  predicate Unblocked(n: Net, a: GroupId, b: GroupId) {
    (a, b) !in n.blocks && (b, a) !in n.blocks
  }

  lemma {:induction false} TargetsPass(n: Net, proposer: GroupId, targets: seq<GroupId>)
    ensures TargetError(n, proposer, targets).None? <==>
      forall i :: 0 <= i < |targets| ==> targets[i] in n.groups && Unblocked(n, targets[i], proposer)
  {
    if targets != [] {
      TargetsPass(n, proposer, targets[1..]);
      assert targets == [targets[0]] + targets[1..];
    }
  }

  /** A formation is opened exactly when there are targets, every group exists, no
      target and the proposer block each other, and no target but the proposer is
      listed twice. Its proposer has accepted, everybody else is asked, and the
      deadline is seven days off. */
  lemma ProposeIff(n: Net, proposer: GroupId, targets: seq<GroupId>, now: int)
    ensures Propose(n, proposer, targets, now).Ok? <==>
      && targets != [] && proposer in n.groups
      && (forall i :: 0 <= i < |targets| ==> targets[i] in n.groups && Unblocked(n, targets[i], proposer))
      && (forall i, j :: 0 <= i < j < |targets| && targets[i] == targets[j] ==> targets[i] == proposer)
    ensures Propose(n, proposer, targets, now).Err? ==>
      Propose(n, proposer, targets, now).error ==
        if targets == [] then InvalidRequest
        else if proposer !in n.groups then GroupNotFound
        else if TargetError(n, proposer, targets).Some? then TargetError(n, proposer, targets).value
        else ConstraintViolation
    ensures Propose(n, proposer, targets, now).Ok? ==>
      var n' := Propose(n, proposer, targets, now).value;
      && n.next in n'.proposals && n' == n.(next := n.next + 1, proposals := n.proposals[n.next := n'.proposals[n.next]])
      && var row := n'.proposals[n.next];
         && row.kind == Formation && row.connection.None? && row.proposer == proposer && row.status == Pending
         && row.expiresAt == now + 604800
         && (forall g :: g in row.roster <==> g in targets || g == proposer)
         && (forall g :: g in row.roster ==> row.roster[g] == if g == proposer then Accepted else Pending)
  {
    TargetsPass(n, proposer, targets);
  }

  /** The first target that does not pass decides the error. */
  lemma {:induction false} FirstOffenderDecides(n: Net, proposer: GroupId, targets: seq<GroupId>, i: nat)
    requires i < |targets| && forall j :: 0 <= j < i ==> targets[j] in n.groups && Unblocked(n, targets[j], proposer)
    requires !(targets[i] in n.groups && Unblocked(n, targets[i], proposer))
    ensures TargetError(n, proposer, targets) == Some(if targets[i] !in n.groups then GroupNotFound else GroupBlocked)
  {
    if i > 0 {
      assert forall j :: 0 <= j < i - 1 ==> targets[1..][j] == targets[j + 1];
      FirstOffenderDecides(n, proposer, targets[1..], i - 1);
    }
  }

  /** An invitation is opened exactly when the connection has the proposer as a
      member and not the target, which exists and shares no block with any member. */
  lemma InviteIff(n: Net, c: ConnId, proposer: GroupId, target: GroupId, now: int)
    ensures Invite(n, c, proposer, target, now).Ok? <==>
      && target in n.groups && c in n.conns && proposer in n.conns[c] && target !in n.conns[c]
      && forall m :: m in n.conns[c] ==> Unblocked(n, m, target)
    ensures Invite(n, c, proposer, target, now).Err? ==>
      Invite(n, c, proposer, target, now).error ==
        if target !in n.groups then GroupNotFound
        else if c !in n.conns then ConnectionNotFound
        else if exists m :: m in n.conns[c] && !Unblocked(n, m, target) then GroupBlocked
        else if proposer !in n.conns[c] then NotConnectionMember
        else AlreadyConnected
    ensures Invite(n, c, proposer, target, now).Ok? ==>
      var n' := Invite(n, c, proposer, target, now).value;
      && n.next in n'.proposals && n' == n.(next := n.next + 1, proposals := n.proposals[n.next := n'.proposals[n.next]])
      && var row := n'.proposals[n.next];
         && row.kind == Expansion && row.connection == Some(c) && row.proposer == proposer && row.status == Pending
         && row.expiresAt == now + 604800
         && (forall g :: g in row.roster <==> g in n.conns[c] || g == target)
         && (forall g :: g in row.roster ==> row.roster[g] == if g == proposer then Accepted else Pending)
  {
  }

  // ---- Answers ----

  /** What a response writes: the group's entry, and the status it leads to. */
  lemma ResponseWrites(n: Net, p: PropId, g: GroupId, accept: bool, now: int)
    requires Sound(n) && Respond(n, p, g, accept, now).Ok?
    ensures p in n.proposals && g in n.proposals[p].roster && p in Respond(n, p, g, accept, now).value.proposals
    ensures var before, after := n.proposals[p], Respond(n, p, g, accept, now).value.proposals[p];
      && after.roster == before.roster[g := if accept then Accepted else Declined]
      && after.kind == before.kind && after.proposer == before.proposer && after.expiresAt == before.expiresAt
      && after.status ==
           if !accept then Declined
           else if exists h :: h in before.roster && h != g && before.roster[h] == Pending then Pending
           else Accepted
  {
    ResponseUsesOneEntry(n, p, g, accept, now);
    var before := n.proposals[p];
    var roster := before.roster[g := Accepted];
    PendingIff(before.roster, g);
    assert RosterFits(n, before);
  }

  lemma PendingIff(roster: map<GroupId, Status>, g: GroupId)
    ensures WithStatus(roster[g := Accepted], Pending) != {} <==>
      exists h :: h in roster && h != g && roster[h] == Pending
  {
    if h :| h in roster && h != g && roster[h] == Pending {
      assert h in WithStatus(roster[g := Accepted], Pending);
    }
    var open := WithStatus(roster[g := Accepted], Pending);
    if open != {} {
      var h :| h in open;
      assert h in roster && h != g && roster[h] == Pending;
    }
  }

  /** No step moves a proposal's deadline. */
  lemma {:induction false} DeadlineStays(n: Net, es: seq<Event>, p: PropId)
    requires Sound(n) && p < n.next
    ensures Sound(Run(n, es)) && (p in Run(n, es).proposals ==> p in n.proposals && Run(n, es).proposals[p].expiresAt == n.proposals[p].expiresAt)
    decreases |es|
  {
    if es != [] {
      var e := es[0];
      if e.RespondToProposal? && e.proposal == p {
        if Outcome(n, e).Ok? {
          ResponseWrites(n, p, e.group, e.accept, e.now);
        }
      } else {
        OthersKeepProposal(n, e, p);
      }
      SoundStep(n, e);
      StepKeepsIssued(n, e);
      DeadlineStays(Step(n, e), es[1..], p);
    }
  }

  /** After any history following its opening, no response later than seven days
      after it is taken. */
  lemma NoLateResponse(n: Net, opening: Event, at: int, es: seq<Event>, g: GroupId, accept: bool, now: int)
    requires Sound(n) && Outcome(n, opening).Ok?
    requires (opening.ProposeConnection? && opening.now == at) || (opening.InviteToConnection? && opening.now == at)
    requires now > at + 604800
    ensures Respond(Run(Step(n, opening), es), n.next, g, accept, now).Err?
    ensures n.next in Run(Step(n, opening), es).proposals ==>
      Respond(Run(Step(n, opening), es), n.next, g, accept, now) == Err(ProposalNotPending)
  {
    if opening.ProposeConnection? {
      ProposeIff(n, opening.proposer, opening.targets, at);
    } else {
      InviteIff(n, opening.connection, opening.proposer, opening.target, at);
    }
    SoundStep(n, opening);
    DeadlineStays(Step(n, opening), es, n.next);
    ResponseUsesOneEntry(Run(Step(n, opening), es), n.next, g, accept, now);
  }

  // ---- Departures and blocks ----

  /** Who may leave, whom a block can be put on, and what lifting one takes. */
  lemma BlockIff(n: Net, a: GroupId, b: GroupId)
    ensures Block(n, a, b).Ok? <==> a != b && (a, b) !in n.blocks && a in n.groups && b in n.groups
    ensures Block(n, a, b).Err? ==>
      Block(n, a, b).error ==
        if a == b then CannotBlockSelf else if (a, b) in n.blocks then AlreadyBlocked else ConstraintViolation
    ensures Block(n, a, b).Ok? ==> Block(n, a, b).value.blocks == n.blocks + {(a, b)} && Block(n, a, b).value.groups == n.groups
    ensures Unblock(n, a, b) == if (a, b) in n.blocks then Ok(n.(blocks := n.blocks - {(a, b)})) else Err(GroupNotFound)
  {
    if Block(n, a, b).Ok? {
      BlockIsEviction(n, a, b);
    }
  }

  /** One look of the sweep: a listed member goes exactly when there is another
      member and every other one blocks it, the member itself blocking nobody. */
  lemma SweepOne(n: Net, c: ConnId, g: GroupId)
    ensures SweepBlocked(n, c, [g]) ==
      if c in n.conns && g in n.conns[c] && (exists m :: m in n.conns[c] && m != g)
         && (forall m :: m in n.conns[c] && m != g ==> (m, g) in n.blocks)
      then Step(n, LeaveConnection(c, g)) else n
  {
    var left := Leave(n, c, g);
    var n1 := if UnanimouslyBlocked(n, c, g) && left.Ok? then left.value else n;
    assert [g][1..] == [];
    assert SweepBlocked(n1, c, []) == n1;
    if c in n.conns {
      if m :| m in n.conns[c] && m != g {
        assert m in n.conns[c] - {g};
      }
      if m :| m in n.conns[c] - {g} {
        assert m in n.conns[c] && m != g;
      }
    }
  }

  // ---- Chats ----

  /** A chat is proposed exactly when the proposer is a member, fewer than five
      signal groups of the connection are active and no user is given two keys. */
  lemma ProposeChatIff(n: Net, c: ConnId, proposer: GroupId, req: ChatRequest, admin: Option<UserId>, now: int)
    requires Sound(n) && Known(n) && AdminRow(n, proposer, admin)
    ensures ProposeChat(n, c, proposer, req, admin, now).Ok? <==>
      && c in n.conns && proposer in n.conns[c]
      && |set sg | sg in n.signals && n.signals[sg].owner == ByConnection(c) && n.signals[sg].active| < 5
      && forall i, j :: 0 <= i < j < |req.wrapped| ==> req.wrapped[i].user != req.wrapped[j].user
    ensures ProposeChat(n, c, proposer, req, admin, now).Err? ==>
      ProposeChat(n, c, proposer, req, admin, now).error ==
        if c !in n.conns then ConnectionNotFound
        else if proposer !in n.conns[c] then NotConnectionMember
        else if |set sg | sg in n.signals && n.signals[sg].owner == ByConnection(c) && n.signals[sg].active| >= 5 then SignalGroupLimit
        else ConstraintViolation
  {
    assert ActiveSignals(n, c) == set sg | sg in n.signals && n.signals[sg].owner == ByConnection(c) && n.signals[sg].active;
    if c in n.conns && proposer in n.conns[c] {
      assert |n.conns[c]| >= 2;
    }
    if admin.Some? {
      assert admin.value in UsersOf(n, proposer);
    }
  }

  /** ... and then is pending for seven days, with a vote for every member, the
      proposer's cast; nothing else changes. */
  lemma ProposeChatWrites(n: Net, c: ConnId, proposer: GroupId, req: ChatRequest, admin: Option<UserId>, now: int)
    requires Sound(n) && ProposeChat(n, c, proposer, req, admin, now).Ok?
    ensures var n' := ProposeChat(n, c, proposer, req, admin, now).value;
      && n.next in n'.chats && n' == n.(next := n.next + 1, chats := n.chats[n.next := n'.chats[n.next]])
      && var row := n'.chats[n.next];
         && row.connection == c && row.proposer == proposer && row.status == Pending && row.expiresAt == now + 604800
         && c in n.conns && row.votes.Keys == n.conns[c]
         && forall g :: g in row.votes ==> row.votes[g] == if g == proposer then Accepted else Pending
  {
    assert |n.conns[c]| >= 2;
  }

  /** The approving vote is the last one open. */
  predicate LastToVote(chat: Chat, g: GroupId) {
    forall h :: h in chat.votes && h != g ==> chat.votes[h] != Pending
  }

  /** A restricted chat with everything its secret takes. */
  predicate CarriesSecret(chat: Chat) {
    && chat.adminOnly && chat.proposerUser.Some?
    && chat.bundle.payload.Some? && chat.bundle.payload.value != "" && chat.bundle.iv.Some? && chat.bundle.iv.value != ""
    && chat.bundle.wrapped != map[]
  }

  /** A vote is taken exactly when the chat exists, is pending and not past its
      deadline, the group may vote and has not, and the last approval of a complete
      bundle names only users there are; each other case has its error. */
  lemma VoteIff(n: Net, h: ChatId, g: GroupId, approve: bool, now: int)
    requires Known(n)
    ensures Vote(n, h, g, approve, now).Ok? <==>
      && h in n.chats && n.chats[h].status == Pending && now <= n.chats[h].expiresAt
      && g in n.chats[h].votes && n.chats[h].votes[g] == Pending
      && (approve && LastToVote(n.chats[h], g) && CarriesSecret(n.chats[h]) ==>
            forall u :: u in n.chats[h].bundle.wrapped ==> u in n.users)
    ensures Vote(n, h, g, approve, now).Err? ==>
      Vote(n, h, g, approve, now).error ==
        if h !in n.chats then ChatNotFound
        else if n.chats[h].status != Pending || n.chats[h].expiresAt < now then ProposalNotPending
        else if g !in n.chats[h].votes then GroupNotInProposal
        else if n.chats[h].votes[g] != Pending then AlreadyResponded
        else ConstraintViolation
  {
    VoteTakenIff(n, h, g, approve, now);
    if h in n.chats {
      CarriesIff(n.chats[h]);
    }
    if VoteError(n, h, g, now).None? {
      LastToVoteIff(n.chats[h], g);
      RefusalIsConstraint(n, h, g, approve, now);
    }
  }

  lemma LastToVoteIff(chat: Chat, g: GroupId)
    ensures LastToVote(chat, g) <==> WithStatus(chat.votes[g := Accepted], Pending) == {}
  {
    PendingIff(chat.votes, g);
  }

  /** What a vote writes. */
  lemma VoteWrites(n: Net, h: ChatId, g: GroupId, approve: bool, now: int)
    requires Vote(n, h, g, approve, now).Ok?
    ensures h in n.chats && h in Vote(n, h, g, approve, now).value.chats
    ensures var before, after := n.chats[h], Vote(n, h, g, approve, now).value.chats[h];
      && after.votes == before.votes[g := if approve then Accepted else Declined]
      && after.expiresAt == before.expiresAt
      && after.status == if !approve then Declined else if LastToVote(before, g) then Accepted else Pending
  {
    LastToVoteIff(n.chats[h], g);
  }

  lemma CarriesIff(chat: Chat)
    ensures CarriesSecret(chat) <==> BundleComplete(chat)
  {
    if chat.bundle.wrapped != map[] {
      var u :| u in chat.bundle.wrapped;
      assert u in chat.bundle.wrapped.Keys;
    }
  }

  /** The last approval opens one active signal group of the connection, and with it
      one secret for exactly the bundle's users, unflagged, when the chat carries one;
      any other vote makes neither. */
  lemma VoteCreates(n: Net, h: ChatId, g: GroupId, approve: bool, now: int)
    requires Vote(n, h, g, approve, now).Ok?
    ensures h in n.chats
    ensures var n', chat := Vote(n, h, g, approve, now).value, n.chats[h];
      if approve && LastToVote(chat, g) then
        && n'.signals == n.signals[n.next := SignalGroup(ByConnection(chat.connection), true)]
        && if !CarriesSecret(chat) then n'.secrets == n.secrets
           else
             && n.next + 1 in n'.secrets && n'.secrets == n.secrets[n.next + 1 := n'.secrets[n.next + 1]]
             && SecretFrom(chat, n.next, n'.secrets[n.next + 1])
      else n'.signals == n.signals && n'.secrets == n.secrets
  {
    LastToVoteIff(n.chats[h], g);
    CarriesIff(n.chats[h]);
  }

  /** The secret of a chat, on signal group `sg`. */
  ghost predicate SecretFrom(chat: Chat, sg: SignalId, secret: Secret)
    requires CarriesSecret(chat)
  {
    && secret.owner == OfSignalGroup(sg) && secret.payload == chat.bundle.payload.value && secret.iv == chat.bundle.iv.value
    && secret.updatedBy == chat.proposerUser.value
    && (forall u :: u in secret.keys <==> u in chat.bundle.wrapped)
    && forall u :: u in secret.keys ==>
         secret.keys[u].dek == chat.bundle.wrapped[u] && !secret.keys[u].rekeyNeeded && !secret.keys[u].rotationPending
  }

  lemma {:induction false} ChatDeadlineStays(n: Net, es: seq<Event>, h: ChatId)
    requires Sound(n) && h < n.next
    ensures h in Run(n, es).chats ==> h in n.chats && Run(n, es).chats[h].expiresAt == n.chats[h].expiresAt
    decreases |es|
  {
    if es != [] {
      TextStep(n, es[0], h);
      SoundStep(n, es[0]);
      StepKeepsIssued(n, es[0]);
      ChatDeadlineStays(Step(n, es[0]), es[1..], h);
    }
  }

  lemma ChatDeadlineIs(n: Net, c: ConnId, proposer: GroupId, req: ChatRequest, admin: Option<UserId>, at: int)
    requires ProposeChat(n, c, proposer, req, admin, at).Ok?
    ensures var n1 := ProposeChat(n, c, proposer, req, admin, at).value;
      n.next < n1.next && n.next in n1.chats && n1.chats[n.next].expiresAt == at + 604800
  {
    ProposeChatIssues(n, c, proposer, req, admin, at);
  }

  /** After any history following its proposal, no vote later than seven days after
      it is taken. */
  lemma NoLateVote(n: Net, c: ConnId, proposer: GroupId, req: ChatRequest, admin: Option<UserId>, at: int,
                   es: seq<Event>, g: GroupId, approve: bool, now: int)
    requires Sound(n) && ProposeChat(n, c, proposer, req, admin, at).Ok? && now > at + 604800
    ensures Vote(Run(ProposeChat(n, c, proposer, req, admin, at).value, es), n.next, g, approve, now).Err?
  {
    var n1 := ProposeChat(n, c, proposer, req, admin, at).value;
    ProposeChatKeeps(n, c, proposer, req, admin, at);
    ChatDeadlineIs(n, c, proposer, req, admin, at);
    ChatDeadlineStays(n1, es, n.next);
  }

  // ---- Secrets and users ----

  /** Rows made from entries with distinct users are those entries. */
  lemma RowsAreEntries(wrapped: seq<WrappedKey>)
    requires !UsersRepeat(wrapped)
    ensures forall u :: u in WrappedRows(wrapped) <==> exists i :: 0 <= i < |wrapped| && wrapped[i].user == u
    ensures forall i :: 0 <= i < |wrapped| ==>
      wrapped[i].user in WrappedRows(wrapped) && WrappedRows(wrapped)[wrapped[i].user] == wrapped[i].dek
  {
    RowsOfAll(wrapped);
    forall i | 0 <= i < |wrapped|
      ensures wrapped[i].user in WrappedRows(wrapped) && WrappedRows(wrapped)[wrapped[i].user] == wrapped[i].dek
    {
      RowsHoldKeys(wrapped, i);
    }
  }

  /** A secret is created exactly when its signal group exists, its author and every
      user named exist and nobody is named twice; it gives each user named the key
      listed for it, unflagged, and nobody else any. */
  lemma CreateSecretIff(n: Net, owner: SecretOwner, payload: string, iv: string, author: UserId, wrapped: seq<WrappedKey>)
    ensures CreateSecret(n, owner, payload, iv, author, wrapped).Ok? <==>
      && (owner.OfSignalGroup? ==> owner.signal in n.signals) && author in n.users
      && (forall i :: 0 <= i < |wrapped| ==> wrapped[i].user in n.users)
      && (forall i, j :: 0 <= i < j < |wrapped| ==> wrapped[i].user != wrapped[j].user)
    ensures CreateSecret(n, owner, payload, iv, author, wrapped).Ok? ==>
      var n' := CreateSecret(n, owner, payload, iv, author, wrapped).value;
      && n.next in n'.secrets && n' == n.(next := n.next + 1, secrets := n.secrets[n.next := n'.secrets[n.next]])
      && var secret := n'.secrets[n.next];
         && secret.owner == owner && secret.payload == payload && secret.iv == iv && secret.updatedBy == author
         && (forall u :: u in secret.keys <==> exists i :: 0 <= i < |wrapped| && wrapped[i].user == u)
         && forall i :: 0 <= i < |wrapped| ==>
              wrapped[i].user in secret.keys && secret.keys[wrapped[i].user] == KeyRow(wrapped[i].dek, false, false)
  {
    if !UsersRepeat(wrapped) {
      RowsAreEntries(wrapped);
    }
    if forall i :: 0 <= i < |wrapped| ==> wrapped[i].user in n.users {
      assert forall u :: u in Named(wrapped) ==> u in n.users;
    } else {
      var i :| 0 <= i < |wrapped| && wrapped[i].user !in n.users;
      assert wrapped[i].user in Named(wrapped);
    }
  }

  /** A user is deleted exactly when it exists and is no secret's last author; its
      memberships, bans and keys and its mark on chats go, and nobody else's. */
  lemma DeleteUserIff(n: Net, u: UserId)
    ensures DeleteUser(n, u).Ok? <==> u in n.users && forall s :: s in n.secrets ==> n.secrets[s].updatedBy != u
    ensures DeleteUser(n, u).Ok? ==>
      var n' := DeleteUser(n, u).value;
      && n' == n.(users := n.users - {u}, groups := n'.groups, chats := n'.chats, secrets := n'.secrets)
      && n'.groups.Keys == n.groups.Keys && n'.chats.Keys == n.chats.Keys && n'.secrets.Keys == n.secrets.Keys
      && (forall g :: g in n.groups ==>
            n'.groups[g].members == n.groups[g].members - {u} && n'.groups[g].banned == n.groups[g].banned - {u}
            && n'.groups[g] == G.Step(n.groups[g], G.Forget(u)))
      && (forall h :: h in n.chats ==>
            n'.chats[h] == if n.chats[h].proposerUser == Some(u) then n.chats[h].(proposerUser := None) else n.chats[h])
      && (forall s :: s in n.secrets ==> n'.secrets[s] == n.secrets[s].(keys := n.secrets[s].keys - {u}))
  {
  }
}
