// Chat proposals: votes, unanimity, and what becomes of the keys stored with a
// proposal when it is approved (internal/database/connections.go).
module Chats {
  import opened Prelude
  import opened Network
  import opened Eviction
  import opened Invariants
  import opened Consensus
  import opened Consent
  import opened Custody
  import opened Users
  import G = Groups

  // ---- Rows ----

  /** The same row, except that deleting a user may have emptied its proposer column. */
  ghost predicate SameChat(before: Chat, after: Chat) {
    after == before || after == before.(proposerUser := None)
  }

  lemma EvictionKeepsChats(n: Net, cs: set<ConnId>, g: GroupId, h: ChatId)
    ensures h in Evicted(n, cs, g).chats ==> h in n.chats && Evicted(n, cs, g).chats[h] == n.chats[h]
  {
  }

  lemma LeaveKeepsChats(n: Net, c: ConnId, g: GroupId, h: ChatId)
    requires Leave(n, c, g).Ok?
    ensures h in Leave(n, c, g).value.chats ==> h in n.chats && Leave(n, c, g).value.chats[h] == n.chats[h]
  {
    RemovalIsEviction(n, c, g);
    EvictionKeepsChats(n, {c}, g, h);
  }

  lemma BlockKeepsChats(n: Net, a: GroupId, b: GroupId, h: ChatId)
    requires Block(n, a, b).Ok?
    ensures h in Block(n, a, b).value.chats ==> h in n.chats && Block(n, a, b).value.chats[h] == n.chats[h]
  {
    BlockIsEviction(n, a, b);
    EvictionKeepsChats(n.(blocks := n.blocks + {(a, b)}), SharedConnections(n, a, b), b, h);
  }

  lemma GroupEventSparesChats(n: Net, g: GroupId, e: G.Event)
    requires InGroup(n, g, e).Ok?
    ensures InGroup(n, g, e).value.chats == n.chats
  {
  }

  lemma ChatsUntouched(n: Net, e: Event)
    requires Sound(n) && !e.ProposeSignalChat? && !e.VoteOnChat? && !e.LeaveConnection? && !e.BlockGroup? && !e.RemoveUser?
    ensures Step(n, e).chats == n.chats
  {
    if OnSecrets(e) {
      SecretFrame(n, e);
    } else if e.RespondToProposal? {
      ResponseFrame(n, e);
    } else if e.GroupEvent? && Outcome(n, e).Ok? {
      GroupEventSparesChats(n, e.group, e.event);
    }
  }

  lemma NewChatKeepsRow(n: Net, e: Event, h: ChatId)
    requires Sound(n) && h < n.next && e.ProposeSignalChat?
    ensures h in Step(n, e).chats ==> h in n.chats && Step(n, e).chats[h] == n.chats[h]
  {
    if Outcome(n, e).Ok? {
      ChatOpensPending(n, e.connection, e.proposer, e.req, e.admin, e.now);
    }
  }

  lemma OtherVoteKeepsRow(n: Net, e: Event, h: ChatId)
    requires Sound(n) && e.VoteOnChat? && e.chat != h
    ensures h in Step(n, e).chats ==> h in n.chats && Step(n, e).chats[h] == n.chats[h]
  {
    if Outcome(n, e).Ok? {
      VoteVotes(n, e.chat, e.group, e.approve, e.now);
    }
  }

  lemma OthersKeepRow(n: Net, e: Event, h: ChatId)
    requires Sound(n) && h < n.next && !(e.VoteOnChat? && e.chat == h) && !e.RemoveUser?
    ensures h in Step(n, e).chats ==> h in n.chats && Step(n, e).chats[h] == n.chats[h]
  {
    if e.ProposeSignalChat? {
      NewChatKeepsRow(n, e, h);
    } else if e.VoteOnChat? {
      OtherVoteKeepsRow(n, e, h);
    } else if !e.LeaveConnection? && !e.BlockGroup? {
      ChatsUntouched(n, e);
    } else if Outcome(n, e).Ok? {
      if e.LeaveConnection? {
        LeaveKeepsChats(n, e.connection, e.group, h);
      } else {
        BlockKeepsChats(n, e.blocker, e.blocked, h);
      }
    }
  }

  /** No step but a vote on `h` changes that chat proposal, except that deleting its
      proposing user empties that column; it may also be deleted. */
  lemma OthersKeepChat(n: Net, e: Event, h: ChatId)
    requires Sound(n) && h < n.next && !(e.VoteOnChat? && e.chat == h)
    ensures h in Step(n, e).chats ==> h in n.chats && SameChat(n.chats[h], Step(n, e).chats[h])
  {
    if !e.RemoveUser? {
      OthersKeepRow(n, e, h);
    }
  }

  /** An approved or declined chat keeps its status and its votes. */
  lemma ChatStatusIsFinal(n: Net, e: Event, h: ChatId)
    requires Sound(n) && h in n.chats && n.chats[h].status != Pending
    ensures h in Step(n, e).chats ==> SameChat(n.chats[h], Step(n, e).chats[h])
  {
    if e.VoteOnChat? && e.chat == h {
      assert Outcome(n, e) == Err(ProposalNotPending);
    } else {
      OthersKeepChat(n, e, h);
    }
  }

  // ---- Votes ----

  ghost function OpenVotes(n: Net, h: ChatId): nat {
    if h in n.chats then |WithStatus(n.chats[h].votes, Pending)| else 0
  }

  /** The vote that approves chat `h`, if it is taken. */
  predicate Approves(n: Net, h: ChatId, g: GroupId, approve: bool, now: int) {
    && VoteError(n, h, g, now).None? && approve
    && WithStatus(n.chats[h].votes[g := Accepted], Pending) == {}
  }

  lemma VoteRecords(n: Net, h: ChatId, g: GroupId, approve: bool, now: int)
    requires Vote(n, h, g, approve, now).Ok?
    ensures VoteError(n, h, g, now).None? && h in Vote(n, h, g, approve, now).value.chats
    ensures Vote(n, h, g, approve, now).value.chats[h].votes == n.chats[h].votes[g := Answer(approve)]
  {
  }

  /** What approving `h` has to insert names only users there are. */
  predicate KeysInsertable(n: Net, h: ChatId)
    requires h in n.chats
  {
    BundleComplete(n.chats[h]) ==> n.chats[h].bundle.wrapped.Keys <= n.users
  }

  /** A vote is taken exactly when its checks pass and, if it approves a complete
      bundle, every user the bundle names exists; it then uses up one open vote.
      Otherwise nothing changes: the key rows break their foreign key and take the
      vote back with them. */
  lemma VoteTakenIff(n: Net, h: ChatId, g: GroupId, approve: bool, now: int)
    requires Known(n)
    ensures Vote(n, h, g, approve, now).Ok? <==>
      VoteError(n, h, g, now).None? && (Approves(n, h, g, approve, now) ==> KeysInsertable(n, h))
    ensures Vote(n, h, g, approve, now).Ok? ==> OpenVotes(Vote(n, h, g, approve, now).value, h) == OpenVotes(n, h) - 1
  {
    if Vote(n, h, g, approve, now).Ok? {
      VoteUsesOneEntry(n, h, g, approve, now);
    }
    if h in n.chats && n.chats[h].proposerUser.Some? {
      assert n.chats[h].proposerUser.value in n.users;
    }
  }

  lemma VoteUsesOneEntry(n: Net, h: ChatId, g: GroupId, approve: bool, now: int)
    requires Vote(n, h, g, approve, now).Ok?
    ensures OpenVotes(Vote(n, h, g, approve, now).value, h) == OpenVotes(n, h) - 1
  {
    VoteRecords(n, h, g, approve, now);
    OneMoreVote(n.chats[h].votes, g, Answer(approve));
    OneFewer(WithStatus(n.chats[h].votes, Pending), g);
  }

  /** The votes on `h` that succeed in a history. */
  ghost function Votes(n: Net, es: seq<Event>, h: ChatId): nat
    decreases |es|
  {
    if es == [] then 0
    else (if es[0].VoteOnChat? && es[0].chat == h && Outcome(n, es[0]).Ok? then 1 else 0) + Votes(Step(n, es[0]), es[1..], h)
  }

  lemma {:induction false} VotesAreBounded(n: Net, es: seq<Event>, h: ChatId)
    requires Sound(n) && h < n.next
    ensures Votes(n, es, h) <= OpenVotes(n, h)
    decreases |es|
  {
    if es != [] {
      var e := es[0];
      if e.VoteOnChat? && e.chat == h {
        if Outcome(n, e).Ok? {
          VoteUsesOneEntry(n, h, e.group, e.approve, e.now);
        }
      } else {
        OthersKeepChat(n, e, h);
      }
      SoundStep(n, e);
      StepKeepsIssued(n, e);
      VotesAreBounded(Step(n, e), es[1..], h);
    }
  }

  // ---- Unanimity ----

  lemma BallotKeysStep(n: Net, e: Event, h: ChatId)
    requires Sound(n) && h < n.next
    ensures h in Step(n, e).chats ==> h in n.chats && Step(n, e).chats[h].votes.Keys == n.chats[h].votes.Keys
  {
    if e.VoteOnChat? && e.chat == h {
      if Outcome(n, e).Ok? {
        VoteRecords(n, h, e.group, e.approve, e.now);
      }
    } else {
      OthersKeepChat(n, e, h);
    }
  }

  lemma {:induction false} BallotKeysThroughout(n: Net, es: seq<Event>, h: ChatId)
    requires Sound(n) && h < n.next
    ensures Sound(Run(n, es))
    ensures h in Run(n, es).chats ==> h in n.chats && Run(n, es).chats[h].votes.Keys == n.chats[h].votes.Keys
    decreases |es|
  {
    if es != [] {
      BallotKeysStep(n, es[0], h);
      SoundStep(n, es[0]);
      StepKeepsIssued(n, es[0]);
      BallotKeysThroughout(Step(n, es[0]), es[1..], h);
    }
  }

  lemma BallotOfMembers(n: Net, c: ConnId, g: GroupId, req: ChatRequest, admin: Option<UserId>, now: int)
    requires Sound(n) && ProposeChat(n, c, g, req, admin, now).Ok?
    ensures n.next in ProposeChat(n, c, g, req, admin, now).value.chats
    ensures ProposeChat(n, c, g, req, admin, now).value.chats[n.next].votes.Keys == n.conns[c]
  {
    ChatOpensPending(n, c, g, req, admin, now);
  }

  /** A chat is approved only with the approval of every group that was a member of
      the connection when it was proposed, those that have left since included. */
  lemma ChatIsUnanimous(n: Net, c: ConnId, g: GroupId, req: ChatRequest, admin: Option<UserId>, now: int, es: seq<Event>)
    requires Sound(n) && ProposeChat(n, c, g, req, admin, now).Ok?
    ensures var n' := Run(ProposeChat(n, c, g, req, admin, now).value, es);
      n.next in n'.chats && n'.chats[n.next].status == Accepted ==> AllAccept(n'.chats[n.next].votes, n.conns[c])
  {
    var n1 := ProposeChat(n, c, g, req, admin, now).value;
    ProposeChatKeeps(n, c, g, req, admin, now);
    BallotOfMembers(n, c, g, req, admin, now);
    ProposeChatIssues(n, c, g, req, admin, now);
    BallotKeysThroughout(n1, es, n.next);
    var n' := Run(n1, es);
    if n.next in n'.chats && n'.chats[n.next].status == Accepted {
      AcceptedByAll(n'.chats[n.next].votes, n.conns[c]);
    }
  }

  lemma ProposeChatIssues(n: Net, c: ConnId, g: GroupId, req: ChatRequest, admin: Option<UserId>, now: int)
    requires ProposeChat(n, c, g, req, admin, now).Ok?
    ensures n.next < ProposeChat(n, c, g, req, admin, now).value.next
  {
  }

  // ---- What was proposed is what is created ----

  /** The same connection and the same bundle; the proposer may be forgotten. */
  ghost predicate SameText(before: Chat, after: Chat) {
    && after == before.(status := after.status, votes := after.votes, proposerUser := after.proposerUser)
    && (after.proposerUser == before.proposerUser || after.proposerUser == None)
  }

  lemma VoteKeepsText(n: Net, h: ChatId, g: GroupId, approve: bool, now: int)
    requires Vote(n, h, g, approve, now).Ok?
    ensures h in n.chats && h in Vote(n, h, g, approve, now).value.chats
    ensures SameText(n.chats[h], Vote(n, h, g, approve, now).value.chats[h])
    ensures Vote(n, h, g, approve, now).value.chats[h].proposerUser == n.chats[h].proposerUser
  {
  }

  /** The step deletes the user. */
  predicate Deletes(n: Net, e: Event, u: UserId) {
    e == RemoveUser(u) && Outcome(n, e).Ok?
  }

  lemma TextStep(n: Net, e: Event, h: ChatId)
    requires Sound(n) && h < n.next
    ensures h in Step(n, e).chats ==> h in n.chats && SameText(n.chats[h], Step(n, e).chats[h])
    ensures h in Step(n, e).chats && n.chats[h].proposerUser.Some? ==>
      (Step(n, e).chats[h].proposerUser == None <==> Deletes(n, e, n.chats[h].proposerUser.value))
  {
    if e.VoteOnChat? && e.chat == h {
      if Outcome(n, e).Ok? {
        VoteKeepsText(n, h, e.group, e.approve, e.now);
      }
    } else {
      OthersKeepChat(n, e, h);
      if !e.RemoveUser? {
        OthersKeepRow(n, e, h);
      }
    }
  }

  /** The user is deleted at some moment of the history. */
  ghost predicate DeletedIn(n: Net, es: seq<Event>, u: UserId)
    decreases |es|
  {
    es != [] && (Deletes(n, es[0], u) || DeletedIn(Step(n, es[0]), es[1..], u))
  }

  lemma {:induction false} ForgottenStays(n: Net, es: seq<Event>, h: ChatId)
    requires Sound(n) && h in n.chats && n.chats[h].proposerUser == None
    ensures h in Run(n, es).chats ==> SameText(n.chats[h], Run(n, es).chats[h])
    decreases |es|
  {
    if es != [] {
      TextStep(n, es[0], h);
      SoundStep(n, es[0]);
      StepKeepsIssued(n, es[0]);
      if h in Step(n, es[0]).chats {
        ForgottenStays(Step(n, es[0]), es[1..], h);
      } else {
        GoneStaysGone(Step(n, es[0]), es[1..], h);
      }
    }
  }

  lemma {:induction false} GoneStaysGone(n: Net, es: seq<Event>, h: ChatId)
    requires Sound(n) && h < n.next && h !in n.chats
    ensures h !in Run(n, es).chats
    decreases |es|
  {
    if es != [] {
      TextStep(n, es[0], h);
      SoundStep(n, es[0]);
      StepKeepsIssued(n, es[0]);
      GoneStaysGone(Step(n, es[0]), es[1..], h);
    }
  }

  /** Through any history a chat proposal keeps its connection and its bundle, and
      its proposer exactly as long as that user is not deleted. */
  lemma {:induction false} TextThroughout(n: Net, es: seq<Event>, h: ChatId, u: UserId)
    requires Sound(n) && h in n.chats && n.chats[h].proposerUser == Some(u)
    ensures h in Run(n, es).chats ==>
      SameText(n.chats[h], Run(n, es).chats[h])
      && Run(n, es).chats[h].proposerUser == if DeletedIn(n, es, u) then None else Some(u)
    decreases |es|
  {
    if es != [] {
      var n1 := Step(n, es[0]);
      TextStep(n, es[0], h);
      SoundStep(n, es[0]);
      StepKeepsIssued(n, es[0]);
      if h !in n1.chats {
        GoneStaysGone(n1, es[1..], h);
      } else if Deletes(n, es[0], u) {
        ForgottenStays(n1, es[1..], h);
      } else {
        TextThroughout(n1, es[1..], h, u);
      }
    }
  }

  /** A request for a restricted chat with everything a secret takes. */
  predicate Restricted(req: ChatRequest, admin: Option<UserId>) {
    req.adminOnly && admin.Some? && Present(req.payload) && Present(req.iv) && req.wrapped != []
  }

  lemma ProposedText(n: Net, c: ConnId, g: GroupId, req: ChatRequest, admin: Option<UserId>, now: int)
    requires Sound(n) && ProposeChat(n, c, g, req, admin, now).Ok?
    ensures n.next in ProposeChat(n, c, g, req, admin, now).value.chats
    ensures var h := ProposeChat(n, c, g, req, admin, now).value.chats[n.next];
      h.connection == c && h.adminOnly == req.adminOnly && h.proposerUser == admin
      && h.bundle == Bundle(req.payload, req.iv, WrappedRows(req.wrapped))
  {
    ChatOpensPending(n, c, g, req, admin, now);
  }

  /** What the approving vote of a chat does with its bundle. */
  ghost predicate Created(n: Net, h: ChatId, after: Net)
    requires h in n.chats && BundleComplete(n.chats[h])
  {
    var chat := n.chats[h];
    && after.signals == n.signals[n.next := SignalGroup(ByConnection(chat.connection), true)]
    && after.secrets == n.secrets[n.next + 1 :=
         Secret(OfSignalGroup(n.next), chat.bundle.payload.value, chat.bundle.iv.value, chat.proposerUser.value, FreshRows(chat.bundle.wrapped))]
  }

  lemma ApprovalCreates(n: Net, h: ChatId, g: GroupId, now: int)
    requires Approves(n, h, g, true, now) && BundleComplete(n.chats[h]) && Vote(n, h, g, true, now).Ok?
    ensures Created(n, h, Vote(n, h, g, true, now).value)
  {
  }

  lemma ApprovalWithoutProposer(n: Net, h: ChatId, g: GroupId, now: int)
    requires Approves(n, h, g, true, now) && n.chats[h].proposerUser == None
    ensures var vote := Vote(n, h, g, true, now);
      vote.Ok? && vote.value.secrets == n.secrets
      && vote.value.signals == n.signals[n.next := SignalGroup(ByConnection(n.chats[h].connection), true)]
  {
  }

  /** The approving vote of a complete bundle, by whether the users it names exist. */
  lemma ApprovalDecides(n: Net, h: ChatId, g: GroupId, now: int)
    requires Known(n) && Approves(n, h, g, true, now) && BundleComplete(n.chats[h])
    ensures var vote := Vote(n, h, g, true, now);
      if !(n.chats[h].bundle.wrapped.Keys <= n.users) then vote == Err(ConstraintViolation)
      else vote.Ok? && Created(n, h, vote.value)
  {
    VoteTakenIff(n, h, g, true, now);
    RefusalIsConstraint(n, h, g, true, now);
    if Vote(n, h, g, true, now).Ok? {
      ApprovalCreates(n, h, g, now);
    }
  }

  /** What becomes of a restricted chat, whatever happens between its proposal and
      the vote that completes it. If its proposing user has been deleted since, the
      signal group is created without any secret. Otherwise, if some user the
      bundle names does not exist, the vote is refused; and if all exist, the secret
      is created with exactly the payload and the wrapped keys of the request, no
      flag set, on a signal group of the connection it was proposed for. */
  lemma BundleArrivesIff(n: Net, c: ConnId, g: GroupId, req: ChatRequest, admin: Option<UserId>, at: int,
                         es: seq<Event>, voter: GroupId, now: int)
    requires Sound(n) && Known(n) && ProposeChat(n, c, g, req, admin, at).Ok? && Restricted(req, admin)
    requires Approves(Run(ProposeChat(n, c, g, req, admin, at).value, es), n.next, voter, true, now)
    ensures var before := Run(ProposeChat(n, c, g, req, admin, at).value, es);
      var vote := Vote(before, n.next, voter, true, now);
      if DeletedIn(ProposeChat(n, c, g, req, admin, at).value, es, admin.value) then
        vote.Ok? && vote.value.secrets == before.secrets
        && vote.value.signals == before.signals[before.next := SignalGroup(ByConnection(c), true)]
      else if !(Named(req.wrapped) <= before.users) then vote == Err(ConstraintViolation)
      else
        && vote.Ok?
        && vote.value.signals == before.signals[before.next := SignalGroup(ByConnection(c), true)]
        && vote.value.secrets == before.secrets[before.next + 1 :=
             Secret(OfSignalGroup(before.next), req.payload.value, req.iv.value, admin.value, FreshRows(WrappedRows(req.wrapped)))]
  {
    var n1 := ProposeChat(n, c, g, req, admin, at).value;
    ProposedText(n, c, g, req, admin, at);
    ProposeChatKeeps(n, c, g, req, admin, at);
    ProposeChatKnown(n, c, g, req, admin, at);
    TextThroughout(n1, es, n.next, admin.value);
    KnownThroughout(n1, es);
    var before := Run(n1, es);
    RowsOfAll(req.wrapped);
    assert req.wrapped[0].user in Named(req.wrapped);
    if DeletedIn(n1, es, admin.value) {
      ApprovalWithoutProposer(before, n.next, voter, now);
    } else {
      ApprovalDecides(before, n.next, voter, now);
    }
  }

  lemma RefusalIsConstraint(n: Net, h: ChatId, g: GroupId, approve: bool, now: int)
    requires VoteError(n, h, g, now).None?
    ensures Vote(n, h, g, approve, now).Err? ==> Vote(n, h, g, approve, now) == Err(ConstraintViolation)
  {
  }

  // ---- A bundle that can never be inserted ----

  predicate NeverAdded(es: seq<Event>, u: UserId) {
    forall i :: 0 <= i < |es| ==> es[i] != AddUser(u)
  }

  lemma {:induction false} MissingStays(n: Net, es: seq<Event>, u: UserId)
    requires Sound(n) && u !in n.users && NeverAdded(es, u)
    ensures u !in Run(n, es).users
    decreases |es|
  {
    if es != [] {
      UsersOnlyBy(n, es[0], u);
      SoundStep(n, es[0]);
      assert NeverAdded(es[1..], u) by {
        assert forall i :: 0 <= i < |es[1..]| ==> es[1..][i] == es[i + 1];
      }
      MissingStays(Step(n, es[0]), es[1..], u);
    }
  }

  lemma UsersFrame(n: Net, e: Event)
    requires Sound(n) && !OnGroups(e)
    ensures Step(n, e).users == n.users && Step(n, e).groups == n.groups
  {
    if OnSecrets(e) {
      SecretFrame(n, e);
    } else if OnChats(e) {
      ChatFrame(n, e);
    } else if e.RespondToProposal? {
      ResponseFrame(n, e);
    } else if Outcome(n, e).Ok? {
      if e.LeaveConnection? {
        RemovalIsEviction(n, e.connection, e.group);
      } else if e.BlockGroup? {
        BlockIsEviction(n, e.blocker, e.blocked);
      }
    }
  }

  /** Nobody becomes a user but by being added. */
  lemma UsersOnlyBy(n: Net, e: Event, u: UserId)
    requires Sound(n) && u !in n.users && e != AddUser(u)
    ensures u !in Step(n, e).users
  {
    if OnGroups(e) {
      GroupStepsUsers(n, e);
    } else {
      UsersFrame(n, e);
    }
  }

  lemma GroupEventUsers(n: Net, g: GroupId, e: G.Event)
    requires InGroup(n, g, e).Ok?
    ensures InGroup(n, g, e).value.users == n.users
  {
  }

  lemma GroupStepsUsers(n: Net, e: Event)
    requires OnGroups(e)
    ensures Step(n, e).users <= if e.AddUser? then n.users + {e.user} else n.users
  {
    if e.GroupEvent? && Outcome(n, e).Ok? {
      GroupEventUsers(n, e.group, e.event);
    }
  }

  /** A proposal whose bundle names a user that is never added is never approved,
      on any attempt, as long as the proposing user exists. */
  lemma NamingAStrangerBlocksApproval(n: Net, c: ConnId, g: GroupId, req: ChatRequest, admin: Option<UserId>, at: int, stranger: UserId,
                                      es: seq<Event>, voter: GroupId, now: int)
    requires Sound(n) && Known(n) && ProposeChat(n, c, g, req, admin, at).Ok? && Restricted(req, admin)
    requires stranger in Named(req.wrapped) && stranger !in n.users && NeverAdded(es, stranger)
    requires !DeletedIn(ProposeChat(n, c, g, req, admin, at).value, es, admin.value)
    requires Approves(Run(ProposeChat(n, c, g, req, admin, at).value, es), n.next, voter, true, now)
    ensures Vote(Run(ProposeChat(n, c, g, req, admin, at).value, es), n.next, voter, true, now) == Err(ConstraintViolation)
  {
    var n1 := ProposeChat(n, c, g, req, admin, at).value;
    ChatOpensPending(n, c, g, req, admin, at);
    ProposeChatKeeps(n, c, g, req, admin, at);
    MissingStays(n1, es, stranger);
    BundleArrivesIff(n, c, g, req, admin, at, es, voter, now);
  }

  const TO_A_STRANGER := ChatRequest(true, Some("payload"), Some("iv"), [WrappedKey(7, "key")])

  /** A case reachable from the empty database: user 7 does not exist, and the vote
      of the last group is refused although its checks pass. */
  lemma ApprovalCanBeRefused() returns (es: seq<Event>, h: ChatId)
    ensures VoteError(Run(EMPTY, es), h, 1, 0).None? && Vote(Run(EMPTY, es), h, 1, true, 0) == Err(ConstraintViolation)
  {
    var opening := TwoConnected();
    ReachableIsSound(opening);
    ReachableIsKnown(opening);
    var e := ProposeSignalChat(3, 0, TO_A_STRANGER, Some(0), 0);
    StrangerRefused(Run(EMPTY, opening));
    ProposedLast(opening, 3, 0, TO_A_STRANGER, Some(0), 0);
    es, h := opening + [e], Run(EMPTY, opening).next;
  }

  lemma ProposedLast(es: seq<Event>, c: ConnId, g: GroupId, req: ChatRequest, admin: Option<UserId>, now: int)
    requires ProposeChat(Run(EMPTY, es), c, g, req, admin, now).Ok?
    ensures Run(EMPTY, es + [ProposeSignalChat(c, g, req, admin, now)]) == ProposeChat(Run(EMPTY, es), c, g, req, admin, now).value
  {
    RunOneMore(EMPTY, es, ProposeSignalChat(c, g, req, admin, now));
  }

  lemma StrangerRefused(n: Net)
    requires Sound(n) && Known(n) && n.conns == map[3 := {0, 1}] && n.signals == map[] && n.users == {0} && 0 in AdminsOf(n, 0)
    ensures ProposeChat(n, 3, 0, TO_A_STRANGER, Some(0), 0).Ok?
    ensures var n1 := ProposeChat(n, 3, 0, TO_A_STRANGER, Some(0), 0).value;
      VoteError(n1, n.next, 1, 0).None? && Vote(n1, n.next, 1, true, 0) == Err(ConstraintViolation)
  {
    StrangerProposed(n);
    StrangerIsNamed();
    StrangerBlocksAtOnce(n, 3, 0, TO_A_STRANGER, Some(0), 0, 7, 1, 0);
  }

  lemma StrangerIsNamed()
    ensures 7 in Named(TO_A_STRANGER.wrapped) && Restricted(TO_A_STRANGER, Some(0))
  {
    assert TO_A_STRANGER.wrapped[0].user in Named(TO_A_STRANGER.wrapped);
  }

  lemma StrangerBlocksAtOnce(n: Net, c: ConnId, g: GroupId, req: ChatRequest, admin: Option<UserId>, at: int, stranger: UserId,
                             voter: GroupId, now: int)
    requires Sound(n) && Known(n) && ProposeChat(n, c, g, req, admin, at).Ok? && Restricted(req, admin)
    requires stranger in Named(req.wrapped) && stranger !in n.users
    requires Approves(ProposeChat(n, c, g, req, admin, at).value, n.next, voter, true, now)
    ensures Vote(ProposeChat(n, c, g, req, admin, at).value, n.next, voter, true, now) == Err(ConstraintViolation)
  {
    var n1 := ProposeChat(n, c, g, req, admin, at).value;
    assert Run(n1, []) == n1;
    NamingAStrangerBlocksApproval(n, c, g, req, admin, at, stranger, [], voter, now);
  }

  lemma StrangerProposed(n: Net)
    requires Sound(n) && n.conns == map[3 := {0, 1}] && n.signals == map[] && n.users == {0} && 0 in AdminsOf(n, 0)
    ensures ProposeChat(n, 3, 0, TO_A_STRANGER, Some(0), 0).Ok?
    ensures Approves(ProposeChat(n, 3, 0, TO_A_STRANGER, Some(0), 0).value, n.next, 1, true, 0)
  {
    var group0: GroupId, group1: GroupId := 0, 1;
    assert n.conns[3] == {group0, group1} && |{group0, group1}| == 2;
    assert ActiveSignals(n, 3) == {};
    var votes := OpeningVotes({group0, group1}, 0);
    assert votes == map[0 := Accepted, 1 := Pending];
    assert WithStatus(votes[1 := Accepted], Pending) == {};
    ChatOpensPending(n, 3, 0, TO_A_STRANGER, Some(0), 0);
  }
}
