// Who can hold a key to a secret, over whole histories: recipients only ever
// shrink, a departure is final, and rotations answer revocations one for one.
module Custody {
  import opened Prelude
  import opened Network
  import opened Eviction
  import opened Invariants
  import opened Consensus
  import G = Groups

  function Recipients(n: Net, s: SecretId): set<UserId> {
    if s in n.secrets then n.secrets[s].keys.Keys else {}
  }

  // ---- Lists of wrapped keys ----

  function Named(wrapped: seq<WrappedKey>): set<UserId> {
    set i | 0 <= i < |wrapped| :: wrapped[i].user
  }

  lemma {:induction false} RowsOfAll(wrapped: seq<WrappedKey>)
    ensures WrappedRows(wrapped).Keys == Named(wrapped)
  {
    if wrapped != [] {
      var init := wrapped[..|wrapped| - 1];
      RowsOfAll(init);
      assert Named(wrapped) == Named(init) + {wrapped[|wrapped| - 1].user};
    }
  }

  /** Where no user is repeated, each user's row holds that user's own key. */
  lemma {:induction false} RowsHoldKeys(wrapped: seq<WrappedKey>, i: nat)
    requires i < |wrapped| && !UsersRepeat(wrapped)
    ensures wrapped[i].user in WrappedRows(wrapped) && WrappedRows(wrapped)[wrapped[i].user] == wrapped[i].dek
  {
    var init := wrapped[..|wrapped| - 1];
    if i < |init| {
      RowsHoldKeys(init, i);
    }
  }

  lemma NamedSplits(wrapped: seq<WrappedKey>)
    requires wrapped != []
    ensures Named(wrapped) == Named(wrapped[..|wrapped| - 1]) + {wrapped[|wrapped| - 1].user}
  {
    var init := wrapped[..|wrapped| - 1];
    assert forall i :: 0 <= i < |init| ==> init[i] == wrapped[i];
  }

  /** The last entry repeats a user exactly when that user was named before. */
  lemma RepeatSplits(wrapped: seq<WrappedKey>)
    requires wrapped != []
    ensures UsersRepeat(wrapped) <==>
      UsersRepeat(wrapped[..|wrapped| - 1]) || wrapped[|wrapped| - 1].user in Named(wrapped[..|wrapped| - 1])
  {
    var last := |wrapped| - 1;
    var init := wrapped[..last];
    assert forall i :: 0 <= i < last ==> init[i] == wrapped[i] && init[i].user in Named(init);
    if UsersRepeat(wrapped) {
      var i, j :| 0 <= i < j < |wrapped| && wrapped[i].user == wrapped[j].user;
      assert init[i].user == wrapped[j].user;
    }
    if UsersRepeat(init) {
      var i, j :| 0 <= i < j < |init| && init[i].user == init[j].user;
      assert wrapped[i].user == wrapped[j].user;
    }
    if wrapped[last].user in Named(init) {
      var i :| 0 <= i < |init| && init[i].user == wrapped[last].user;
      assert wrapped[i].user == wrapped[last].user;
    }
  }

  lemma {:induction false} RepeatOrSize(wrapped: seq<WrappedKey>)
    ensures |Named(wrapped)| <= |wrapped|
    ensures |Named(wrapped)| == |wrapped| <==> !UsersRepeat(wrapped)
  {
    if wrapped == [] {
    } else {
      var init, user := wrapped[..|wrapped| - 1], wrapped[|wrapped| - 1].user;
      RepeatOrSize(init);
      NamedSplits(wrapped);
      RepeatSplits(wrapped);
      if user in Named(init) {
        assert Named(init) + {user} == Named(init);
      } else {
        OneMore(Named(init), user);
      }
    }
  }

  // ---- Rotation ----

  /** The caller's row on the secret waits for a rotation. */
  predicate Flagged(n: Net, s: SecretId, user: UserId) {
    s in n.secrets && user in n.secrets[s].keys && n.secrets[s].keys[user].rotationPending
  }

  /** The entries pass the checks exactly when every key is present and the users
      named are the recipients, each once. */
  lemma EntriesMatchIff(wrapped: seq<WrappedKey>, recipients: set<UserId>)
    ensures EntriesMatch(wrapped, recipients) <==>
      Named(wrapped) == recipients && |wrapped| == |recipients| && forall i :: 0 <= i < |wrapped| ==> wrapped[i].dek != ""
  {
    RepeatOrSize(wrapped);
    if EntriesMatch(wrapped, recipients) {
      assert Named(wrapped) == recipients;
    } else if Named(wrapped) == recipients {
      assert forall i :: 0 <= i < |wrapped| ==> wrapped[i].user in Named(wrapped);
      assert forall u :: u in recipients ==> u in Named(wrapped);
    }
  }

  /** A rotation succeeds exactly when its caller is flagged and the entries name
      the current recipients once each, the caller among them. */
  lemma RotationSucceedsIff(n: Net, s: SecretId, caller: UserId, payload: string, iv: string, wrapped: seq<WrappedKey>)
    ensures Rotate(n, s, caller, payload, iv, wrapped).Ok? <==>
      && Flagged(n, s, caller)
      && Named(wrapped) == Recipients(n, s) && |wrapped| == |Recipients(n, s)|
      && (forall i :: 0 <= i < |wrapped| ==> wrapped[i].dek != "")
    ensures Rotate(n, s, caller, payload, iv, wrapped).Ok? ==> caller in Named(wrapped) && wrapped != []
  {
    if Flagged(n, s, caller) {
      EntriesMatchIff(wrapped, Recipients(n, s));
      assert caller in Recipients(n, s);
      if wrapped == [] {
        assert Named(wrapped) == {};
      }
    }
  }

  /** A successful rotation replaces the payload and every recipient's key with
      the one submitted for that recipient, clears every flag of the secret and
      changes neither its recipients nor anything else. */
  lemma RotationEffect(n: Net, s: SecretId, caller: UserId, payload: string, iv: string, wrapped: seq<WrappedKey>)
    requires Rotate(n, s, caller, payload, iv, wrapped).Ok?
    ensures var n' := Rotate(n, s, caller, payload, iv, wrapped).value;
      && n' == n.(secrets := n.secrets[s := n.secrets[s].(payload := payload, iv := iv, updatedBy := caller, keys := n'.secrets[s].keys)])
      && Recipients(n', s) == Recipients(n, s)
      && forall i :: 0 <= i < |wrapped| ==>
           wrapped[i].user in n'.secrets[s].keys && n'.secrets[s].keys[wrapped[i].user] == KeyRow(wrapped[i].dek, false, false)
  {
    RotationSucceedsIff(n, s, caller, payload, iv, wrapped);
    RowsOfAll(wrapped);
    forall i | 0 <= i < |wrapped|
      ensures wrapped[i].user in WrappedRows(wrapped) && WrappedRows(wrapped)[wrapped[i].user] == wrapped[i].dek
    {
      RowsHoldKeys(wrapped, i);
    }
  }

  // ---- What a step does to one secret's rows ----

  /** Rows disappear, or are rewritten in place. */
  ghost predicate OnlyLosesRecipients(n: Net, n': Net, s: SecretId) {
    s in n'.secrets ==>
      s in n.secrets && n'.secrets[s].keys.Keys <= n.secrets[s].keys.Keys && n'.secrets[s].owner == n.secrets[s].owner
  }

  lemma EvictionLoses(n: Net, cs: set<ConnId>, g: GroupId, s: SecretId)
    ensures OnlyLosesRecipients(n, Evicted(n, cs, g), s)
  {
  }

  lemma NewGroupsMakeNewSecrets(n: Net, h: Chat, s: SecretId)
    requires s < n.next
    ensures CreateSignalGroup(n, h).Ok? && s in CreateSignalGroup(n, h).value.secrets ==>
      s in n.secrets && CreateSignalGroup(n, h).value.secrets[s] == n.secrets[s]
  {
  }

  lemma NewChatsMakeNewSecrets(n: Net, e: Event, s: SecretId)
    requires OnChats(e) && s < n.next
    ensures s in Step(n, e).secrets ==> s in n.secrets && Step(n, e).secrets[s] == n.secrets[s]
  {
    if e.ProposeSignalChat? {
      ProposedChatsMakeNewSecrets(n, e, s);
    } else if e.VoteOnChat? {
      VotesMakeNewSecrets(n, e, s);
    }
  }

  lemma ProposedChatsMakeNewSecrets(n: Net, e: Event, s: SecretId)
    requires e.ProposeSignalChat? && s < n.next
    ensures s in Step(n, e).secrets ==> s in n.secrets && Step(n, e).secrets[s] == n.secrets[s]
  {
  }

  lemma VotesMakeNewSecrets(n: Net, e: Event, s: SecretId)
    requires e.VoteOnChat? && s < n.next
    ensures s in Step(n, e).secrets ==> s in n.secrets && Step(n, e).secrets[s] == n.secrets[s]
  {
    if VoteError(n, e.chat, e.group, e.now).None? {
      NewGroupsMakeNewSecrets(n, n.chats[e.chat].(votes := n.chats[e.chat].votes[e.group := Answer(e.approve)]), s);
    }
  }

  lemma NewSecretLoses(n: Net, e: Event, s: SecretId)
    requires e.AddSecret? && s < n.next
    ensures OnlyLosesRecipients(n, Step(n, e), s)
  {
  }

  lemma SecretStepLoses(n: Net, e: Event, s: SecretId)
    requires OnSecrets(e) && s < n.next
    ensures OnlyLosesRecipients(n, Step(n, e), s)
  {
    if e.Rekey? {
      RekeysTouchKeysOnly(n, PendingRekeys(n, e.caller, e.publicKeys), e.entries);
    } else if e.AddSecret? {
      NewSecretLoses(n, e, s);
    } else if e.RotateSecret? && Outcome(n, e).Ok? {
      RotationEffect(n, e.secret, e.caller, e.payload, e.iv, e.wrapped);
    }
  }

  lemma ResponsesSpareSecrets(n: Net, e: Event)
    requires Sound(n) && e.RespondToProposal?
    ensures Step(n, e).secrets == n.secrets
  {
    if Outcome(n, e).Ok? {
      RespondAnswers(n, e.proposal, e.group, e.accept, e.now);
    }
  }

  lemma LeaveLoses(n: Net, c: ConnId, g: GroupId, s: SecretId)
    requires Leave(n, c, g).Ok?
    ensures OnlyLosesRecipients(n, Leave(n, c, g).value, s)
  {
    RemovalIsEviction(n, c, g);
    EvictionLoses(n, {c}, g, s);
  }

  lemma BlockLoses(n: Net, a: GroupId, b: GroupId, s: SecretId)
    requires Block(n, a, b).Ok?
    ensures OnlyLosesRecipients(n, Block(n, a, b).value, s)
  {
    BlockIsEviction(n, a, b);
    EvictionLoses(n.(blocks := n.blocks + {(a, b)}), SharedConnections(n, a, b), b, s);
  }

  lemma RevocationLoses(n: Net, g: GroupId, user: UserId, s: SecretId)
    ensures OnlyLosesRecipients(n, RevokeForUser(n, g, user), s)
  {
  }

  lemma GroupStepLoses(n: Net, e: Event, s: SecretId)
    requires e.GroupEvent? && Outcome(n, e).Ok?
    ensures OnlyLosesRecipients(n, Step(n, e), s)
  {
    if e.event.Leave? || e.event.Ban? {
      RevocationLoses(n.(groups := Step(n, e).groups), e.group, e.event.user, s);
    }
  }

  lemma DeletionLoses(n: Net, u: UserId, s: SecretId)
    requires DeleteUser(n, u).Ok?
    ensures OnlyLosesRecipients(n, DeleteUser(n, u).value, s)
    ensures u !in Recipients(DeleteUser(n, u).value, s)
  {
  }

  lemma RecipientsShrinkStep(n: Net, e: Event, s: SecretId)
    requires Sound(n) && s < n.next
    ensures OnlyLosesRecipients(n, Step(n, e), s)
  {
    if OnSecrets(e) {
      SecretStepLoses(n, e, s);
    } else if OnChats(e) {
      NewChatsMakeNewSecrets(n, e, s);
    } else if e.RespondToProposal? {
      ResponsesSpareSecrets(n, e);
    } else if Outcome(n, e).Ok? {
      if e.GroupEvent? {
        GroupStepLoses(n, e, s);
      } else if e.RemoveUser? {
        DeletionLoses(n, e.user, s);
      } else if e.LeaveConnection? {
        LeaveLoses(n, e.connection, e.group, s);
      } else if e.BlockGroup? {
        BlockLoses(n, e.blocker, e.blocked, s);
      }
    }
  }

  /** No step after a secret's creation ever adds a recipient to it. */
  lemma {:induction false} RecipientsOnlyShrink(n: Net, es: seq<Event>, s: SecretId)
    requires Sound(n) && s < n.next
    ensures Recipients(Run(n, es), s) <= Recipients(n, s)
    decreases |es|
  {
    if es != [] {
      RecipientsShrinkStep(n, es[0], s);
      SoundStep(n, es[0]);
      StepKeepsIssued(n, es[0]);
      RecipientsOnlyShrink(Step(n, es[0]), es[1..], s);
    }
  }

  // ---- Departures are final ----

  predicate Expels(e: G.Event, user: UserId) {
    e == G.Leave(user) || e == G.Ban(user)
  }

  /** Users without a key after a step stay without one. */
  lemma GoneForGood(n: Net, e: Event, s: SecretId, users: set<UserId>, es: seq<Event>)
    requires Sound(n) && s < n.next && Recipients(Step(n, e), s) !! users
    ensures Recipients(Run(Step(n, e), es), s) !! users
  {
    SoundStep(n, e);
    StepKeepsIssued(n, e);
    RecipientsOnlyShrink(Step(n, e), es, s);
  }

  /** A user removed or banned from a group never again, in any continuation,
      holds a key to a secret the group owned at that moment. */
  lemma ExpelledForGood(n: Net, g: GroupId, e: G.Event, user: UserId, s: SecretId, es: seq<Event>)
    requires Sound(n) && g in n.groups && Expels(e, user) && InGroup(n, g, e).Ok?
    requires s in n.secrets && OwnerGroupOf(n, n.secrets[s]) == Some(g)
    ensures user !in Recipients(Run(Step(n, GroupEvent(g, e)), es), s)
  {
    ExpulsionRevokes(n, g, e, user, s);
    GoneForGood(n, GroupEvent(g, e), s, {user}, es);
  }

  /** ... and at that moment every other recipient keeps the key and is flagged to
      rotate it. */
  lemma ExpulsionRevokes(n: Net, g: GroupId, e: G.Event, user: UserId, s: SecretId)
    requires g in n.groups && Expels(e, user) && InGroup(n, g, e).Ok?
    requires s in n.secrets && OwnerGroupOf(n, n.secrets[s]) == Some(g)
    ensures var n' := Step(n, GroupEvent(g, e));
      && user !in UsersOf(n', g)
      && Recipients(n', s) == Recipients(n, s) - {user}
      && forall u :: u in Recipients(n', s) ==> n'.secrets[s].keys[u] == n.secrets[s].keys[u].(rotationPending := true)
  {
  }

  /** A deleted user never again holds a key to a secret there was then, not even
      if the identifier came back. */
  lemma DeletedForGood(n: Net, user: UserId, s: SecretId, es: seq<Event>)
    requires Sound(n) && DeleteUser(n, user).Ok? && s in n.secrets
    ensures user !in Recipients(Run(Step(n, RemoveUser(user)), es), s)
  {
    DeletionLoses(n, user, s);
    GoneForGood(n, RemoveUser(user), s, {user}, es);
  }

  /** The users of a group that leaves a connection, or is evicted from it by a
      block, never again hold a key to a secret the connection had. */
  lemma DepartedForGood(n: Net, c: ConnId, g: GroupId, s: SecretId, es: seq<Event>)
    requires Sound(n) && g in MembersOf(n, c)
    requires s in n.secrets && ConnectionOf(n, n.secrets[s]) == Some(c)
    ensures Recipients(Run(Step(n, LeaveConnection(c, g)), es), s) !! UsersOf(n, g)
  {
    LeaveRevokes(n, c, g, s);
    GoneForGood(n, LeaveConnection(c, g), s, UsersOf(n, g), es);
  }

  lemma LeaveRevokes(n: Net, c: ConnId, g: GroupId, s: SecretId)
    requires g in MembersOf(n, c) && s in n.secrets && ConnectionOf(n, n.secrets[s]) == Some(c)
    ensures Recipients(Step(n, LeaveConnection(c, g)), s) !! UsersOf(n, g)
  {
    RemovalIsEviction(n, c, g);
    EvictionRevokes(n, {c}, g, c, s);
  }

  lemma EvictedForGood(n: Net, a: GroupId, b: GroupId, c: ConnId, s: SecretId, es: seq<Event>)
    requires Sound(n) && Block(n, a, b).Ok? && c in SharedConnections(n, a, b)
    requires s in n.secrets && ConnectionOf(n, n.secrets[s]) == Some(c)
    ensures Recipients(Run(Step(n, BlockGroup(a, b)), es), s) !! UsersOf(n, b)
  {
    BlockRevokes(n, a, b, c, s);
    GoneForGood(n, BlockGroup(a, b), s, UsersOf(n, b), es);
  }

  lemma BlockRevokes(n: Net, a: GroupId, b: GroupId, c: ConnId, s: SecretId)
    requires Block(n, a, b).Ok? && c in SharedConnections(n, a, b)
    requires s in n.secrets && ConnectionOf(n, n.secrets[s]) == Some(c)
    ensures Recipients(Step(n, BlockGroup(a, b)), s) !! UsersOf(n, b)
  {
    BlockIsEviction(n, a, b);
    EvictionRevokes(n.(blocks := n.blocks + {(a, b)}), SharedConnections(n, a, b), b, c, s);
  }

  lemma EvictionRevokes(n: Net, cs: set<ConnId>, g: GroupId, c: ConnId, s: SecretId)
    requires c in cs && s in n.secrets && ConnectionOf(n, n.secrets[s]) == Some(c)
    ensures Recipients(Evicted(n, cs, g), s) !! UsersOf(n, g)
  {
  }

  // ---- Rotations and revocations ----

  /** No recipient waits for a rotation. */
  ghost predicate Quiet(n: Net, s: SecretId) {
    forall u :: !Flagged(n, s, u)
  }

  /** The successful steps that flag recipients of `s`. */
  ghost predicate Revokes(n: Net, e: Event, s: SecretId) {
    && Outcome(n, e).Ok? && s in n.secrets
    && match e
       case GroupEvent(g, ge) => (ge.Leave? || ge.Ban?) && OwnerGroupOf(n, n.secrets[s]) == Some(g)
       case LeaveConnection(c, _) => ConnectionOf(n, n.secrets[s]) == Some(c)
       case BlockGroup(a, b) => In(ConnectionOf(n, n.secrets[s]), SharedConnections(n, a, b))
       case _ => false
  }

  predicate Rotates(n: Net, e: Event, s: SecretId) {
    e.RotateSecret? && e.secret == s && Outcome(n, e).Ok?
  }

  lemma FewerFlags(n: Net, n': Net, s: SecretId)
    requires Quiet(n, s) && forall u :: Flagged(n', s, u) ==> Flagged(n, s, u)
    ensures Quiet(n', s)
  {
  }

  lemma SecretStepQuiet(n: Net, e: Event, s: SecretId)
    requires OnSecrets(e) && s < n.next && !Rotates(n, e, s) && Quiet(n, s)
    ensures Quiet(Step(n, e), s)
  {
    if e.Rekey? {
      RekeysKeepRotation(n, PendingRekeys(n, e.caller, e.publicKeys), e.entries, s);
    }
    FewerFlags(n, Step(n, e), s);
  }

  lemma {:induction false} RekeysKeepRotation(n: Net, allowed: set<(SecretId, UserId)>, entries: seq<RekeyEntry>, s: SecretId)
    ensures forall u :: Flagged(SubmitRekeys(n, allowed, entries), s, u) ==> Flagged(n, s, u)
  {
    if entries != [] {
      RekeysKeepRotation(n, allowed, entries[..|entries| - 1], s);
      var n1 := SubmitRekeys(n, allowed, entries[..|entries| - 1]);
      assert forall u :: Flagged(SubmitRekeys(n, allowed, entries), s, u) ==> Flagged(n1, s, u);
    }
  }

  lemma EvictionQuiet(n: Net, cs: set<ConnId>, g: GroupId, s: SecretId)
    requires Quiet(n, s) && (s in n.secrets ==> !In(ConnectionOf(n, n.secrets[s]), cs))
    ensures Quiet(Evicted(n, cs, g), s)
  {
    var n' := Evicted(n, cs, g);
    if s in n'.secrets {
      assert n'.secrets[s] == n.secrets[s];
      forall u
        ensures !Flagged(n', s, u)
      {
        assert !Flagged(n, s, u);
      }
    }
  }

  lemma RevocationSpares(n: Net, g: GroupId, user: UserId, s: SecretId)
    requires s in n.secrets && OwnerGroupOf(n, n.secrets[s]) != Some(g)
    ensures s in RevokeForUser(n, g, user).secrets && RevokeForUser(n, g, user).secrets[s] == n.secrets[s]
  {
  }

  lemma GroupStepSpares(n: Net, g: GroupId, e: G.Event, s: SecretId)
    requires InGroup(n, g, e).Ok? && s in n.secrets
    requires !((e.Leave? || e.Ban?) && OwnerGroupOf(n, n.secrets[s]) == Some(g))
    ensures s in InGroup(n, g, e).value.secrets && InGroup(n, g, e).value.secrets[s] == n.secrets[s]
  {
    if e.Leave? || e.Ban? {
      RevocationSpares(n.(groups := InGroup(n, g, e).value.groups), g, e.user, s);
    }
  }

  lemma GroupStepQuiet(n: Net, e: Event, s: SecretId)
    requires e.GroupEvent? && Outcome(n, e).Ok? && Quiet(n, s) && !Revokes(n, e, s)
    ensures Quiet(Step(n, e), s)
  {
    GroupEventRewrites(n, e.group, e.event);
    if s in n.secrets {
      GroupStepSpares(n, e.group, e.event, s);
    }
    SameRowsQuiet(n, Step(n, e), s);
  }

  lemma SameRowsQuiet(n: Net, n': Net, s: SecretId)
    requires Quiet(n, s) && (s in n'.secrets ==> s in n.secrets && n'.secrets[s] == n.secrets[s])
    ensures Quiet(n', s)
  {
    assert forall u :: Flagged(n', s, u) ==> Flagged(n, s, u);
  }

  lemma QuietStep(n: Net, e: Event, s: SecretId)
    requires Sound(n) && s < n.next && Quiet(n, s) && !Revokes(n, e, s)
    ensures Quiet(Step(n, e), s)
    ensures !Rotates(n, e, s)
  {
    if e.RotateSecret? {
      assert !Flagged(n, s, e.caller);
    }
    if OnSecrets(e) {
      SecretStepQuiet(n, e, s);
    } else if OnChats(e) {
      NewChatsMakeNewSecrets(n, e, s);
      SameRowsQuiet(n, Step(n, e), s);
    } else if e.RespondToProposal? {
      ResponsesSpareSecrets(n, e);
      SameRowsQuiet(n, Step(n, e), s);
    } else if Outcome(n, e).Ok? {
      if e.GroupEvent? {
        GroupStepQuiet(n, e, s);
      } else if e.RemoveUser? {
        FewerFlags(n, Step(n, e), s);
      } else if e.LeaveConnection? {
        LeaveQuiet(n, e.connection, e.group, s);
      } else if e.BlockGroup? {
        BlockQuiet(n, e.blocker, e.blocked, s);
      } else {
        SameRowsQuiet(n, Step(n, e), s);
      }
    }
  }

  lemma LeaveQuiet(n: Net, c: ConnId, g: GroupId, s: SecretId)
    requires Leave(n, c, g).Ok? && Quiet(n, s) && (s in n.secrets ==> ConnectionOf(n, n.secrets[s]) != Some(c))
    ensures Quiet(Leave(n, c, g).value, s)
  {
    RemovalIsEviction(n, c, g);
    EvictionQuiet(n, {c}, g, s);
  }

  lemma BlockQuiet(n: Net, a: GroupId, b: GroupId, s: SecretId)
    requires Block(n, a, b).Ok? && Quiet(n, s)
    requires s in n.secrets ==> !In(ConnectionOf(n, n.secrets[s]), SharedConnections(n, a, b))
    ensures Quiet(Block(n, a, b).value, s)
  {
    BlockIsEviction(n, a, b);
    var n1 := n.(blocks := n.blocks + {(a, b)});
    SameRowsQuiet(n, n1, s);
    EvictionQuiet(n1, SharedConnections(n, a, b), b, s);
  }

  lemma RotationQuiets(n: Net, e: Event, s: SecretId)
    requires Rotates(n, e, s)
    ensures Quiet(Step(n, e), s)
  {
  }

  ghost function Rotations(n: Net, es: seq<Event>, s: SecretId): nat
    decreases |es|
  {
    if es == [] then 0
    else (if Rotates(n, es[0], s) then 1 else 0) + Rotations(Step(n, es[0]), es[1..], s)
  }

  ghost function Revocations(n: Net, es: seq<Event>, s: SecretId): nat
    decreases |es|
  {
    if es == [] then 0
    else (if Revokes(n, es[0], s) then 1 else 0) + Revocations(Step(n, es[0]), es[1..], s)
  }

  /** Over any stretch of history a secret is rotated at most once more than it is
      revoked, and no more often than that if nobody was waiting at its start: a
      stretch without revocations has at most one successful rotation. */
  lemma {:induction false} RotationsAnswerRevocations(n: Net, es: seq<Event>, s: SecretId)
    requires Sound(n) && s < n.next
    ensures Rotations(n, es, s) <= Revocations(n, es, s) + if Quiet(n, s) then 0 else 1
    decreases |es|
  {
    if es != [] {
      var e := es[0];
      SoundStep(n, e);
      StepKeepsIssued(n, e);
      if Rotates(n, e, s) {
        RotationQuiets(n, e, s);
      }
      if Quiet(n, s) && !Revokes(n, e, s) {
        QuietStep(n, e, s);
      }
      RotationsAnswerRevocations(Step(n, e), es[1..], s);
    }
  }

  // ---- Flagging after a new key pair ----

  /** A row with its re-key flag raised. */
  function Raised(row: KeyRow): KeyRow { row.(rekeyNeeded := true) }

  // One row of it, for the theorem below.
  lemma FlagReachesOwnRows(n: Net, user: UserId, s: SecretId, u: UserId)
    requires s in n.secrets && u in n.secrets[s].keys
    ensures var n' := FlagRekeyForUser(n, user);
      && s in n'.secrets && Recipients(n', s) == Recipients(n, s)
      && n'.secrets[s].keys[u] == if u == user then Raised(n.secrets[s].keys[u]) else n.secrets[s].keys[u]
  {
  }

  /** What flagging opens and closes: the re-key flag of exactly the user's own rows
      rises, on every secret, and keys, rotation flags and recipients stay; so the user
      can re-key nobody any more, while every other holder of a valid key is offered
      the user's row on that secret, next to whatever it was offered before. */
  lemma FlagOpensRekey(n: Net, user: UserId, caller: UserId, publicKeys: set<UserId>)
    ensures var n' := FlagRekeyForUser(n, user);
      var offered := set s | s in n.secrets && user in publicKeys && {user, caller} <= Recipients(n, s)
                             && !n.secrets[s].keys[caller].rekeyNeeded :: (s, user);
      PendingRekeys(n', caller, publicKeys) == if caller == user then {} else PendingRekeys(n, caller, publicKeys) + offered
    ensures var n' := FlagRekeyForUser(n, user);
      forall s, u :: s in n.secrets && u in n.secrets[s].keys ==>
        && s in n'.secrets && Recipients(n', s) == Recipients(n, s)
        && n'.secrets[s].keys[u] == if u == user then Raised(n.secrets[s].keys[u]) else n.secrets[s].keys[u]
  {
    var n' := FlagRekeyForUser(n, user);
    forall s, t | s in n.secrets && t in n.secrets[s].keys && caller in n.secrets[s].keys
      ensures (s, t) in PendingRekeys(n', caller, publicKeys) <==>
        caller != user && !n.secrets[s].keys[caller].rekeyNeeded && t in publicKeys && (t == user || n.secrets[s].keys[t].rekeyNeeded)
    {
      FlagReachesOwnRows(n, user, s, t);
      FlagReachesOwnRows(n, user, s, caller);
    }
  }

  /** A batch that serves the user's row gives it the submitted key and takes the
      flag back: flagging and serving change nothing but the key. */
  lemma ServingUndoesTheFlag(n: Net, user: UserId, caller: UserId, publicKeys: set<UserId>, s: SecretId, dek: string)
    requires s in n.secrets && {user, caller} <= Recipients(n, s) && caller != user && user in publicKeys && dek != ""
    requires !n.secrets[s].keys[caller].rekeyNeeded
    ensures var flagged := FlagRekeyForUser(n, user);
      var n' := SubmitRekeys(flagged, PendingRekeys(flagged, caller, publicKeys), [RekeyEntry(Some(s), Some(user), dek)]);
      && s in n'.secrets && Recipients(n', s) == Recipients(n, s)
      && n'.secrets[s].keys[user] == n.secrets[s].keys[user].(dek := dek, rekeyNeeded := false)
  {
    var flagged := FlagRekeyForUser(n, user);
    var allowed := PendingRekeys(flagged, caller, publicKeys);
    var entries := [RekeyEntry(Some(s), Some(user), dek)];
    FlagOpensRekey(n, user, caller, publicKeys);
    assert (s, user) in allowed;
    PendingAreWaiting(flagged, caller, publicKeys);
    FirstEntryWins(flagged, allowed, entries, s, user);
    RekeysTouchKeysOnly(flagged, allowed, entries);
  }

  // ---- The re-key batch ----

  predicate Names(e: RekeyEntry, s: SecretId, target: UserId) {
    Complete(e) && e.secret.value == s && e.target.value == target
  }

  /** The key in the first complete entry for the pair. */
  function FirstKey(entries: seq<RekeyEntry>, s: SecretId, target: UserId): Option<string> {
    if entries == [] then None
    else if Names(entries[0], s, target) then Some(entries[0].dek)
    else FirstKey(entries[1..], s, target)
  }

  lemma {:induction false} FirstKeyAppends(entries: seq<RekeyEntry>, e: RekeyEntry, s: SecretId, target: UserId)
    ensures FirstKey(entries + [e], s, target)
         == if FirstKey(entries, s, target).Some? then FirstKey(entries, s, target)
            else if Names(e, s, target) then Some(e.dek) else None
  {
    if entries == [] {
      assert [] + [e] == [e];
      assert FirstKey([e][1..], s, target).None?;
    } else {
      assert (entries + [e])[1..] == entries[1..] + [e];
      FirstKeyAppends(entries[1..], e, s, target);
    }
  }

  /** The row of a pair after the batch. */
  function Rekeyed(row: KeyRow, dek: Option<string>): KeyRow {
    if dek.Some? then row.(dek := dek.value, rekeyNeeded := false) else row
  }

  /** The batch loop is first come, first served: a row changes exactly when its
      pair was allowed and some complete entry names it, and then takes the key of
      the first such entry. */
  lemma {:induction false} FirstEntryWins(n: Net, allowed: set<(SecretId, UserId)>, entries: seq<RekeyEntry>, s: SecretId, target: UserId)
    requires forall pair :: pair in allowed ==> RekeyWaits(n, pair.0, pair.1)
    requires s in n.secrets && target in n.secrets[s].keys
    ensures s in SubmitRekeys(n, allowed, entries).secrets && target in SubmitRekeys(n, allowed, entries).secrets[s].keys
    ensures SubmitRekeys(n, allowed, entries).secrets[s].keys[target]
         == if (s, target) in allowed then Rekeyed(n.secrets[s].keys[target], FirstKey(entries, s, target)) else n.secrets[s].keys[target]
  {
    if entries != [] {
      var init, e := entries[..|entries| - 1], entries[|entries| - 1];
      assert entries == init + [e];
      FirstEntryWins(n, allowed, init, s, target);
      FirstKeyAppends(init, e, s, target);
    }
  }

  lemma PendingAreWaiting(n: Net, caller: UserId, publicKeys: set<UserId>)
    ensures forall pair :: pair in PendingRekeys(n, caller, publicKeys) ==>
      RekeyWaits(n, pair.0, pair.1) && pair.1 != caller
  {
  }

  /** A batch never touches a row of its own caller. */
  lemma CallersRowsStay(n: Net, caller: UserId, publicKeys: set<UserId>, entries: seq<RekeyEntry>, s: SecretId)
    requires s in n.secrets && caller in n.secrets[s].keys
    ensures var n' := SubmitRekeys(n, PendingRekeys(n, caller, publicKeys), entries);
      s in n'.secrets && caller in n'.secrets[s].keys && n'.secrets[s].keys[caller] == n.secrets[s].keys[caller]
  {
    PendingAreWaiting(n, caller, publicKeys);
    FirstEntryWins(n, PendingRekeys(n, caller, publicKeys), entries, s, caller);
  }

  /** What the caller may still do after a batch is what it could do before, less
      the pairs the batch named. */
  lemma BatchLeavesTheRest(n: Net, caller: UserId, publicKeys: set<UserId>, entries: seq<RekeyEntry>)
    ensures var allowed := PendingRekeys(n, caller, publicKeys);
      PendingRekeys(SubmitRekeys(n, allowed, entries), caller, publicKeys)
      == set pair | pair in allowed && FirstKey(entries, pair.0, pair.1).None?
  {
    var allowed := PendingRekeys(n, caller, publicKeys);
    var n' := SubmitRekeys(n, allowed, entries);
    RekeysTouchKeysOnly(n, allowed, entries);
    PendingAreWaiting(n, caller, publicKeys);
    forall s, t | s in n.secrets && t in n.secrets[s].keys && caller in n.secrets[s].keys
      ensures (s, t) in PendingRekeys(n', caller, publicKeys)
        <==> (s, t) in allowed && FirstKey(entries, s, t).None?
    {
      FirstEntryWins(n, allowed, entries, s, t);
      FirstEntryWins(n, allowed, entries, s, caller);
    }
  }
}
