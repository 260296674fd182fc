// The limit on a connection's active signal groups: when a vote keeps it, and that
// it bounds nothing over a history (internal/database/connections.go:849-860).
module SignalLimit {
  import opened Prelude
  import opened Network
  import opened Invariants
  import opened Consensus
  import opened Chats
  import opened Eviction

  lemma ApprovalAddsOne(n: Net, h: ChatId, g: GroupId, now: int)
    requires Approves(n, h, g, true, now) && Vote(n, h, g, true, now).Ok? && n.next !in n.signals
    ensures var n' := Vote(n, h, g, true, now).value;
      && n'.conns == n.conns && n'.signals == n.signals[n.next := SignalGroup(ByConnection(n.chats[h].connection), true)]
      && ActiveSignals(n', n.chats[h].connection) == ActiveSignals(n, n.chats[h].connection) + {n.next}
      && forall c :: c != n.chats[h].connection ==> ActiveSignals(n', c) == ActiveSignals(n, c)
  {
    var n' := Vote(n, h, g, true, now).value;
    assert n'.signals == n.signals[n.next := SignalGroup(ByConnection(n.chats[h].connection), true)];
    forall c | c != n.chats[h].connection
      ensures ActiveSignals(n', c) == ActiveSignals(n, c)
    {
      OtherConnectionsSignals(n, n', n.chats[h].connection, c);
    }
  }

  lemma OtherConnectionsSignals(n: Net, n': Net, c: ConnId, d: ConnId)
    requires c != d && n.next !in n.signals && n'.signals == n.signals[n.next := SignalGroup(ByConnection(c), true)]
    ensures ActiveSignals(n', d) == ActiveSignals(n, d)
  {
  }

  // ---- What keeps the limit ----

  ghost predicate WithinLimit(n: Net) {
    forall c :: c in n.conns ==> |ActiveSignals(n, c)| <= MAX_SIGNAL_GROUPS
  }

  /** The vote that gives a connection a signal group too many: the limit is checked
      when a chat is proposed, not when it is approved. */
  predicate Exceeds(n: Net, e: Event) {
    && e.VoteOnChat? && Outcome(n, e).Ok? && Approves(n, e.chat, e.group, e.approve, e.now)
    && |ActiveSignals(n, n.chats[e.chat].connection)| >= MAX_SIGNAL_GROUPS
  }

  /** No signal group of a connection is new or newly active. */
  ghost predicate NoNewActive(n: Net, n': Net) {
    forall sg :: sg in n'.signals && n'.signals[sg].owner.ByConnection? ==>
      sg in n.signals && n'.signals[sg].owner == n.signals[sg].owner && (n'.signals[sg].active ==> n.signals[sg].active)
  }

  lemma NoNewActiveKeeps(n: Net, n': Net)
    requires Referential(n) && WithinLimit(n) && NoNewActive(n, n')
    ensures WithinLimit(n')
  {
    forall c | c in n'.conns
      ensures |ActiveSignals(n', c)| <= MAX_SIGNAL_GROUPS
    {
      SubsetSize(ActiveSignals(n', c), ActiveSignals(n, c));
      if c !in n.conns {
        assert ActiveSignals(n, c) == {};
      }
    }
  }

  lemma ApprovalIff(n: Net, h: ChatId, g: GroupId, now: int)
    requires Sound(n) && WithinLimit(n) && Approves(n, h, g, true, now) && Vote(n, h, g, true, now).Ok?
    ensures WithinLimit(Vote(n, h, g, true, now).value) <==> |ActiveSignals(n, n.chats[h].connection)| < MAX_SIGNAL_GROUPS
  {
    ApprovalAddsOne(n, h, g, now);
    OneMore(ActiveSignals(n, n.chats[h].connection), n.next);
    assert n.chats[h].connection in n.conns;
  }

  lemma VoteIff(n: Net, e: Event)
    requires Sound(n) && WithinLimit(n) && e.VoteOnChat? && Outcome(n, e).Ok?
    ensures WithinLimit(Step(n, e)) <==> !Exceeds(n, e)
  {
    if Approves(n, e.chat, e.group, e.approve, e.now) {
      ApprovalIff(n, e.chat, e.group, e.now);
    } else {
      OtherVotesAddNone(n, e.chat, e.group, e.approve, e.now);
      NoNewActiveKeeps(n, Step(n, e));
    }
  }

  lemma OtherVotesAddNone(n: Net, h: ChatId, g: GroupId, approve: bool, now: int)
    requires !Approves(n, h, g, approve, now) && Vote(n, h, g, approve, now).Ok?
    ensures Vote(n, h, g, approve, now).value.signals == n.signals
  {
  }

  lemma EvictionAddsNone(n: Net, cs: set<ConnId>, g: GroupId)
    ensures NoNewActive(n, Evicted(n, cs, g))
  {
  }

  lemma LeaveAddsNone(n: Net, c: ConnId, g: GroupId)
    requires Leave(n, c, g).Ok?
    ensures NoNewActive(n, Leave(n, c, g).value)
  {
    RemovalIsEviction(n, c, g);
    EvictionAddsNone(n, {c}, g);
  }

  lemma BlockAddsNone(n: Net, a: GroupId, b: GroupId)
    requires Block(n, a, b).Ok?
    ensures NoNewActive(n, Block(n, a, b).value)
  {
    BlockIsEviction(n, a, b);
    EvictionAddsNone(n.(blocks := n.blocks + {(a, b)}), SharedConnections(n, a, b), b);
  }

  lemma SignalsUntouched(n: Net, e: Event)
    requires Sound(n) && (OnSecrets(e) || OnGroups(e) || e.RespondToProposal? || OnProposals(e))
    ensures Step(n, e).signals == n.signals
  {
    if OnSecrets(e) {
      SecretFrame(n, e);
    } else if OnGroups(e) {
      GroupFrame(n, e);
    } else if e.RespondToProposal? {
      ResponseFrame(n, e);
    }
  }

  lemma SignalStepAddsNone(n: Net, e: Event)
    requires e.AddGroupSignal? || e.DeactivateSignal?
    ensures NoNewActive(n, Step(n, e))
  {
  }

  lemma OthersAddNone(n: Net, e: Event)
    requires Sound(n) && Outcome(n, e).Ok? && !e.VoteOnChat?
    ensures NoNewActive(n, Step(n, e))
  {
    match e
    case LeaveConnection(c, g) => LeaveAddsNone(n, c, g);
    case BlockGroup(a, b) => BlockAddsNone(n, a, b);
    case ProposeSignalChat(c, g, req, admin, now) => ChatOpensPending(n, c, g, req, admin, now);
    case AddGroupSignal(_) => SignalStepAddsNone(n, e);
    case DeactivateSignal(_) => SignalStepAddsNone(n, e);
    case _ => SignalsUntouched(n, e);
  }

  /** One step of any kind keeps every connection within the limit exactly when it
      is not an approving vote on a connection that is full. */
  lemma LimitStepIff(n: Net, e: Event)
    requires Sound(n) && WithinLimit(n)
    ensures WithinLimit(Step(n, e)) <==> !Exceeds(n, e)
  {
    if Outcome(n, e).Ok? {
      if e.VoteOnChat? {
        VoteIff(n, e);
      } else {
        OthersAddNone(n, e);
        NoNewActiveKeeps(n, Step(n, e));
      }
    }
  }

  ghost predicate AlwaysWithin(n: Net, es: seq<Event>)
    decreases |es|
  {
    WithinLimit(n) && (es != [] ==> AlwaysWithin(Step(n, es[0]), es[1..]))
  }

  ghost predicate NeverExceeds(n: Net, es: seq<Event>)
    decreases |es|
  {
    es != [] ==> !Exceeds(n, es[0]) && NeverExceeds(Step(n, es[0]), es[1..])
  }

  /** A whole history stays within the limit in all its states exactly when no vote
      in it approves a chat of a connection that is full at that moment. */
  lemma {:induction false} LimitThroughoutIff(n: Net, es: seq<Event>)
    requires Sound(n) && WithinLimit(n)
    ensures AlwaysWithin(n, es) <==> NeverExceeds(n, es)
    decreases |es|
  {
    if es != [] {
      LimitStepIff(n, es[0]);
      SoundStep(n, es[0]);
      if WithinLimit(Step(n, es[0])) {
        LimitThroughoutIff(Step(n, es[0]), es[1..]);
      } else {
        assert !AlwaysWithin(Step(n, es[0]), es[1..]);
      }
    }
  }

  // ---- A history with any number of signal groups ----

  const OPEN_VOTES: map<GroupId, Status> := map[0 := Accepted, 1 := Pending]

  function OpenChat(c: ConnId): Chat {
    Chat(c, 0, false, Bundle(None, None, map[]), Some(0), Pending, OPEN_VOTES, PROPOSAL_LIFETIME)
  }

  /** Groups 0 and 1 make up connection `c`, user 0 is an admin of group 0, and the chats `hs` wait for group 1. */
  ghost predicate Waiting(n: Net, c: ConnId, hs: set<ChatId>) {
    && c in n.conns && n.conns[c] == {0, 1} && 0 in n.users && 0 in AdminsOf(n, 0)
    && (forall sg :: sg in n.signals ==> sg < n.next)
    && (forall h :: h in hs ==> h < n.next && h in n.chats && n.chats[h] == OpenChat(c))
  }

  function AskForChat(c: ConnId): Event {
    ProposeSignalChat(c, 0, ChatRequest(false, None, None, []), Some(0), 0)
  }

  lemma AskOne(n: Net, c: ConnId, hs: set<ChatId>)
    requires Waiting(n, c, hs) && ActiveSignals(n, c) == {}
    ensures var n' := Step(n, AskForChat(c));
      Waiting(n', c, hs + {n.next}) && n.next !in hs && ActiveSignals(n', c) == {}
  {
    var group0: GroupId, group1: GroupId := 0, 1;
    var members := {group0, group1};
    assert |members| == 2;
    assert OpeningVotes(members, 0) == OPEN_VOTES;
    var n' := Step(n, AskForChat(c));
    assert n' == n.(next := n.next + 1, chats := n.chats[n.next := OpenChat(c)]);
    assert ActiveSignals(n', c) == ActiveSignals(n, c);
  }

  lemma ApproveOne(n: Net, c: ConnId, hs: set<ChatId>, h: ChatId)
    requires Waiting(n, c, hs) && h in hs
    ensures var n' := Step(n, VoteOnChat(h, 1, true, 0));
      Waiting(n', c, hs - {h}) && |ActiveSignals(n', c)| == |ActiveSignals(n, c)| + 1
  {
    assert WithStatus(OPEN_VOTES[1 := Accepted], Pending) == {};
    assert VoteError(n, h, 1, 0).None?;
    assert Approves(n, h, 1, true, 0);
    ApprovalAddsOne(n, h, 1, 0);
    OneMore(ActiveSignals(n, c), n.next);
    var n' := Step(n, VoteOnChat(h, 1, true, 0));
    assert n'.next == n.next + 1 && n'.conns == n.conns && n'.users == n.users && n'.groups == n.groups;
    assert n'.chats == n.chats[h := n'.chats[h]];
    assert n'.signals == n.signals[n.next := SignalGroup(ByConnection(c), true)];
  }

  lemma {:induction false} AskMany(n: Net, c: ConnId, hs: set<ChatId>, k: nat) returns (es: seq<Event>, asked: set<ChatId>)
    requires Waiting(n, c, hs) && ActiveSignals(n, c) == {}
    ensures Waiting(Run(n, es), c, asked) && ActiveSignals(Run(n, es), c) == {} && |asked| == |hs| + k
    decreases k
  {
    if k == 0 {
      es, asked := [], hs;
    } else {
      AskOne(n, c, hs);
      var e := AskForChat(c);
      var rest: seq<Event>;
      rest, asked := AskMany(Step(n, e), c, hs + {n.next}, k - 1);
      es := [e] + rest;
      RunOne(n, e);
      RunAppend(n, [e], rest);
    }
  }

  lemma {:induction false} ApproveAll(n: Net, c: ConnId, hs: set<ChatId>) returns (es: seq<Event>)
    requires Waiting(n, c, hs)
    ensures |ActiveSignals(Run(n, es), c)| == |ActiveSignals(n, c)| + |hs|
    decreases |hs|
  {
    if hs == {} {
      es := [];
    } else {
      var h :| h in hs;
      ApproveOne(n, c, hs, h);
      var e := VoteOnChat(h, 1, true, 0);
      OneFewer(hs, h);
      var rest := ApproveAll(Step(n, e), c, hs - {h});
      es := [e] + rest;
      RunOne(n, e);
      RunAppend(n, [e], rest);
    }
  }

  /** The limit bounds nothing: proposals are checked against the groups there are,
      not against each other, so for every number some history from the empty
      database gives one connection that many active signal groups. */
  lemma SignalGroupsAreUnbounded(k: nat) returns (es: seq<Event>)
    ensures |ActiveSignals(Run(EMPTY, es), 3)| == k
  {
    var opening := TwoConnected();
    var n := Run(EMPTY, opening);
    assert ActiveSignals(n, 3) == {};
    assert Waiting(n, 3, {});
    var asking, asked := AskMany(n, 3, {}, k);
    var approving := ApproveAll(Run(n, asking), 3, asked);
    RunAppend(EMPTY, opening, asking);
    RunAppend(EMPTY, opening + asking, approving);
    es := opening + asking + approving;
  }
}
