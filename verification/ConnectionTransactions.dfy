// ConnectionRepository: proposals, responses, formation, expansion, invitations,
// departures and chat votes as statements on the tables
// (internal/database/connections.go).
module ConnectionTransactions {
  import opened Prelude
  import opened Network
  import opened Database
  import opened Custody
  import opened SecretTransactions

  // ---- How each loop builds what its specification names ----

  lemma ListedStep(targets: seq<GroupId>, i: nat)
    requires i < |targets|
    ensures Listed(targets[..i + 1]) == Listed(targets[..i]) + {targets[i]}
  {
    assert targets[..i + 1] == targets[..i] + [targets[i]];
  }

  lemma FormationRosterStep(proposer: GroupId, targets: seq<GroupId>, i: nat)
    requires i < |targets|
    ensures FormationRoster(proposer, targets[..i + 1])
         == if targets[i] == proposer then FormationRoster(proposer, targets[..i])
            else FormationRoster(proposer, targets[..i])[targets[i] := Pending]
  {
    ListedStep(targets, i);
  }

  lemma TargetsRepeatStep(proposer: GroupId, targets: seq<GroupId>, i: nat)
    requires i < |targets| && !TargetsRepeat(proposer, targets[..i]) && targets[i] != proposer
    ensures targets[i] in Listed(targets[..i]) ==> TargetsRepeat(proposer, targets)
    ensures targets[i] !in Listed(targets[..i]) ==> !TargetsRepeat(proposer, targets[..i + 1])
  {
    var shorter, longer := targets[..i], targets[..i + 1];
    assert forall k :: 0 <= k < i ==> longer[k] == shorter[k] == targets[k];
    if targets[i] in Listed(shorter) {
      var k :| 0 <= k < i && shorter[k] == targets[i];
      assert targets[k] == targets[i];
    } else {
      assert forall k :: 0 <= k < i ==> shorter[k] in Listed(shorter);
    }
  }

  lemma ProposerRepeatsFreely(proposer: GroupId, targets: seq<GroupId>, i: nat)
    requires i < |targets| && !TargetsRepeat(proposer, targets[..i]) && targets[i] == proposer
    ensures !TargetsRepeat(proposer, targets[..i + 1])
  {
    assert forall k :: 0 <= k < i ==> targets[..i + 1][k] == targets[..i][k];
  }

  lemma ExpansionRosterOf(members: set<GroupId>, proposer: GroupId, target: GroupId, rows: seq<GroupId>, roster: map<GroupId, Status>)
    requires proposer in members && target !in members
    requires Listed(rows) == members - {proposer}
    requires roster.Keys == {proposer} + Listed(rows) && forall g :: g in roster ==> roster[g] == if g == proposer then Accepted else Pending
    ensures roster[target := Pending] == ExpansionRoster(members, proposer, target)
  {
  }

  lemma RowsOf(s: set<nat>)
    ensures Listed(RowOrder(s)) == s
  {
    RowOrderLists(s);
  }

  lemma OpeningVotesOf(members: set<GroupId>, proposer: GroupId, rows: seq<GroupId>, votes: map<GroupId, Status>)
    requires Listed(rows) == members && votes.Keys == Listed(rows)
    requires forall g :: g in votes ==> votes[g] == if g == proposer then Accepted else Pending
    ensures votes == OpeningVotes(members, proposer)
  {
  }

  class ConnectionRepository {
    const db: DB

    constructor (db: DB)
      ensures this.db == db
    {
      this.db := db;
    }

    /** The handler's checks of the targets, in the order of the request. */
    method CheckTargets(proposer: GroupId, targets: seq<GroupId>) returns (error: Option<Error>)
      ensures error == TargetError(db.Tables(), proposer, targets)
    {
      var i := 0;
      while i < |targets|
        invariant 0 <= i <= |targets|
        invariant TargetError(db.Tables(), proposer, targets) == TargetError(db.Tables(), proposer, targets[i..])
      {
        if targets[i] !in db.groups {
          return Some(GroupNotFound);
        }
        if (targets[i], proposer) in db.blocks || (proposer, targets[i]) in db.blocks {
          return Some(GroupBlocked);
        }
        assert targets[i..][1..] == targets[i + 1..];
        i := i + 1;
      }
      return None;
    }

    method ProposeConnection(proposer: GroupId, targets: seq<GroupId>, now: int) returns (error: Option<Error>)
      modifies db
      ensures var n := old(db.Tables());
        var o := Propose(n, proposer, targets, now);
        error == Failure(o) && db.Tables() == Left(n, o)
    {
      if targets == [] {
        return Some(InvalidRequest);
      }
      if proposer !in db.groups {
        return Some(GroupNotFound);
      }
      error := CheckTargets(proposer, targets);
      if error.Some? {
        return;
      }
      db.Begin();
      var p := db.NewId();
      db.proposals := db.proposals[p := Proposal(Formation, None, proposer, Pending, map[proposer := Accepted], now + PROPOSAL_LIFETIME)];
      var ok := InsertTargets(p, proposer, targets);
      if !ok {
        db.Rollback();
        return Some(ConstraintViolation);
      }
    }

    /** The target entries of a formation: the proposer is skipped, a repeated
        target violates the unique key. */
    method InsertTargets(p: PropId, proposer: GroupId, targets: seq<GroupId>) returns (ok: bool)
      requires p in db.proposals && db.proposals[p].roster == map[proposer := Accepted]
      modifies db`proposals
      ensures ok == !TargetsRepeat(proposer, targets)
      ensures ok ==> db.proposals == old(db.proposals)[p := old(db.proposals)[p].(roster := FormationRoster(proposer, targets))]
    {
      assert FormationRoster(proposer, []) == map[proposer := Accepted];
      var i := 0;
      while i < |targets|
        invariant 0 <= i <= |targets| && !TargetsRepeat(proposer, targets[..i])
        invariant db.proposals == old(db.proposals)[p := old(db.proposals)[p].(roster := FormationRoster(proposer, targets[..i]))]
      {
        FormationRosterStep(proposer, targets, i);
        if targets[i] == proposer {
          ProposerRepeatsFreely(proposer, targets, i);
        } else {
          TargetsRepeatStep(proposer, targets, i);
          if targets[i] in db.proposals[p].roster {
            return false;
          }
          db.proposals := db.proposals[p := db.proposals[p].(roster := db.proposals[p].roster[targets[i] := Pending])];
        }
        i := i + 1;
      }
      assert targets[..i] == targets;
      return true;
    }

    /** formConnection: a connection row, the proposal's link to it, and a member
        row for every accepted entry. */
    method FormConnection(p: PropId) returns (c: ConnId)
      requires p in db.proposals
      modifies db`next, db`conns, db`proposals
      ensures c == old(db.next) && db.Tables() == Network.FormConnection(old(db.Tables()), p)
    {
      c := db.NewId();
      db.conns := db.conns[c := {}];
      db.proposals := db.proposals[p := db.proposals[p].(connection := Some(c))];
      var accepted := RowOrder(WithStatus(db.proposals[p].roster, Accepted));
      RowsOf(WithStatus(db.proposals[p].roster, Accepted));
      assert Listed(accepted[..0]) == {};
      var i := 0;
      while i < |accepted|
        invariant 0 <= i <= |accepted|
        invariant db.conns == old(db.conns)[c := Listed(accepted[..i])]
        invariant db.next == c + 1 && db.proposals == old(db.proposals)[p := old(db.proposals)[p].(connection := Some(c))]
      {
        ListedStep(accepted, i);
        db.conns := db.conns[c := db.conns[c] + {accepted[i]}];
        i := i + 1;
      }
      assert accepted[..i] == accepted;
    }

    /** expandConnection: each accepted group that is not a member yet joins unless
        it and a member so far block each other. */
    method ExpandConnection(p: PropId, c: ConnId) returns (error: Option<Error>)
      requires p in db.proposals
      modifies db`conns
      ensures var n := old(db.Tables());
        var o := Network.ExpandConnection(n, p, c);
        error == Failure(o) && db.Tables() == Left(n, o)
    {
      var members := MembersOf(db.Tables(), c);
      var newcomers := RowOrder(Newcomers(db.proposals[p].roster, members));
      RowOrderLists(Newcomers(db.proposals[p].roster, members));
      if c !in db.conns {
        // Without the connection nobody blocks; the member row breaks its foreign key.
        if newcomers != [] {
          assert newcomers[0] in newcomers;
          return Some(ConstraintViolation);
        }
        return None;
      }
      AdmitEach(c, newcomers);
      return None;
    }

    method AdmitEach(c: ConnId, newcomers: seq<GroupId>)
      requires c in db.conns
      modifies db`conns
      ensures db.conns == old(db.conns)[c := Admit(old(db.conns)[c], db.blocks, newcomers)]
    {
      var i := 0;
      while i < |newcomers|
        invariant 0 <= i <= |newcomers| && c in db.conns
        invariant db.conns == old(db.conns)[c := db.conns[c]]
        invariant Admit(db.conns[c], db.blocks, newcomers[i..]) == Admit(old(db.conns)[c], db.blocks, newcomers)
      {
        assert newcomers[i..][1..] == newcomers[i + 1..];
        if !BlockedWithAny(db.blocks, newcomers[i], db.conns[c]) {
          db.conns := db.conns[c := db.conns[c] + {newcomers[i]}];
        }
        i := i + 1;
      }
    }

    method SetStatus(p: PropId, status: Status)
      requires p in db.proposals
      modifies db`proposals
      ensures db.Tables() == SetProposalStatus(old(db.Tables()), p, status)
    {
      db.proposals := db.proposals[p := db.proposals[p].(status := status)];
    }

    method RespondToProposal(p: PropId, g: GroupId, accept: bool, now: int) returns (error: Option<Error>)
      modifies db
      ensures var n := old(db.Tables());
        var o := Respond(n, p, g, accept, now);
        error == Failure(o) && db.Tables() == Left(n, o)
      ensures error.None? ==> old(
        && p in db.proposals && db.proposals[p].status == Pending && now <= db.proposals[p].expiresAt
        && g in db.proposals[p].roster && db.proposals[p].roster[g] == Pending)
    {
      db.Begin();
      if p !in db.proposals {
        return Some(ProposalNotFound);
      }
      var proposal := db.proposals[p];
      if proposal.status != Pending || now > proposal.expiresAt {
        return Some(ProposalNotPending);
      }
      if g !in proposal.roster {
        return Some(GroupNotInProposal);
      }
      if proposal.roster[g] != Pending {
        return Some(AlreadyResponded);
      }
      db.proposals := db.proposals[p := proposal.(roster := proposal.roster[g := if accept then Accepted else Declined])];
      if !accept {
        SetStatus(p, Declined);
        return None;
      }
      if |WithStatus(db.proposals[p].roster, Pending)| == 0 {
        error := Finalize(p);
        if error.Some? {
          db.Rollback();
          return;
        }
      }
      return None;
    }

    /** All have accepted: form or expand the connection, then close the proposal. */
    method Finalize(p: PropId) returns (error: Option<Error>)
      requires p in db.proposals
      modifies db`next, db`conns, db`proposals
      ensures var n := old(db.Tables());
        var prop := n.proposals[p];
        if prop.kind.Formation?
        then error.None? && db.Tables() == SetProposalStatus(Network.FormConnection(n, p), p, Accepted)
        else if prop.connection.None? then error.None? && db.Tables() == SetProposalStatus(n, p, Accepted)
        else
          var expanded := Network.ExpandConnection(n, p, prop.connection.value);
          error == Failure(expanded) && (expanded.Ok? ==> db.Tables() == SetProposalStatus(expanded.value, p, Accepted))
    {
      if db.proposals[p].kind.Formation? {
        var c := FormConnection(p);
      } else if db.proposals[p].connection.Some? {
        error := ExpandConnection(p, db.proposals[p].connection.value);
        if error.Some? {
          return;
        }
      }
      SetStatus(p, Accepted);
      return None;
    }

    /** The handler's look-ups and the repository's checks, then the expansion row
        with an entry for every member and for the invited group. */
    method InviteToConnection(c: ConnId, proposer: GroupId, target: GroupId, now: int) returns (error: Option<Error>)
      modifies db
      ensures var n := old(db.Tables());
        var o := Invite(n, c, proposer, target, now);
        error == Failure(o) && db.Tables() == Left(n, o)
    {
      if target !in db.groups {
        return Some(GroupNotFound);
      }
      if c !in db.conns {
        return Some(ConnectionNotFound);
      }
      if BlockedWithAny(db.blocks, target, db.conns[c]) {
        return Some(GroupBlocked);
      }
      if proposer !in db.conns[c] {
        return Some(NotConnectionMember);
      }
      if target in db.conns[c] {
        return Some(AlreadyConnected);
      }
      var members := db.conns[c];
      var rows := RowOrder(members - {proposer});
      RowsOf(members - {proposer});
      var roster := EntriesFor(proposer, rows);
      ExpansionRosterOf(members, proposer, target, rows, roster);
      var p := db.NewId();
      db.proposals := db.proposals[p :=
        Proposal(Expansion, Some(c), proposer, Pending, roster[target := Pending], now + PROPOSAL_LIFETIME)];
      return None;
    }

    /** The proposer's entry, accepted, and a pending one for each listed group. */
    static method EntriesFor(proposer: GroupId, rows: seq<GroupId>) returns (roster: map<GroupId, Status>)
      requires proposer !in rows
      ensures roster.Keys == {proposer} + Listed(rows)
      ensures forall g :: g in roster ==> roster[g] == if g == proposer then Accepted else Pending
    {
      roster := map[proposer := Accepted];
      var i := 0;
      while i < |rows|
        invariant 0 <= i <= |rows|
        invariant roster.Keys == {proposer} + Listed(rows[..i])
        invariant forall g :: g in roster ==> roster[g] == if g == proposer then Accepted else Pending
      {
        ListedStep(rows, i);
        roster := roster[rows[i] := Pending];
        i := i + 1;
      }
      assert rows[..i] == rows;
    }

    /** Deletes the connection row; the foreign keys delete what belongs to it. */
    method Dissolve(c: ConnId)
      modifies db
      ensures db.Tables() == DeleteConnection(old(db.Tables()), c)
    {
      var n := db.Tables();
      db.conns := db.conns - {c};
      db.proposals := map p | p in db.proposals && db.proposals[p].connection != Some(c) :: db.proposals[p];
      db.chats := map h | h in db.chats && db.chats[h].connection != c :: db.chats[h];
      db.signals := map sg | sg in db.signals && db.signals[sg].owner != ByConnection(c) :: db.signals[sg];
      db.secrets := map s | s in db.secrets && ConnectionOf(n, db.secrets[s]) != Some(c) :: db.secrets[s];
    }

    /** Revoke keys, delete the member row, count those that remain, and either
        delete the connection or clear its pending proposals. */
    method RemoveMember(c: ConnId, g: GroupId)
      modifies db
      ensures db.Tables() == RemoveFromConnection(old(db.Tables()), c, g)
    {
      var secretRepo := new EncryptedSecretRepository(db);
      secretRepo.RevokeConnectionSecretKeysForGroup(c, g);
      if c in db.conns {
        db.conns := db.conns[c := db.conns[c] - {g}];
      }
      if |MembersOf(db.Tables(), c)| <= 1 {
        Dissolve(c);
      } else {
        db.proposals := map p | p in db.proposals
            && !(db.proposals[p].connection == Some(c) && db.proposals[p].status == Pending) :: db.proposals[p];
      }
    }

    method LeaveConnection(c: ConnId, g: GroupId) returns (error: Option<Error>)
      modifies db
      ensures var n := old(db.Tables());
        var o := Leave(n, c, g);
        error == Failure(o) && db.Tables() == Left(n, o)
    {
      if c !in db.conns || g !in db.conns[c] {
        return Some(NotConnectionMember);
      }
      RemoveMember(c, g);
      return None;
    }

    /** Every other member is asked in turn; with no other member the answer is no. */
    method CheckUnanimousBlock(c: ConnId, g: GroupId) returns (blocked: bool)
      ensures blocked == UnanimouslyBlocked(db.Tables(), c, g)
      ensures blocked <==>
        && c in db.conns && (exists m :: m in db.conns[c] && m != g)
        && forall m :: m in db.conns[c] && m != g ==> (m, g) in db.blocks
    {
      var rows := RowOrder(MembersOf(db.Tables(), c) - {g});
      RowOrderLists(MembersOf(db.Tables(), c) - {g});
      if rows == [] {
        return false;
      }
      assert rows[0] in rows;
      var i := 0;
      while i < |rows|
        invariant 0 <= i <= |rows|
        invariant forall k :: 0 <= k < i ==> (rows[k], g) in db.blocks
      {
        assert rows[i] in rows;
        if (rows[i], g) !in db.blocks {
          return false;
        }
        i := i + 1;
      }
      assert forall m :: m in db.conns[c] && m != g ==> m in rows;
      assert rows[0] in db.conns[c] && rows[0] != g;
      return true;
    }

    // ---- Chats ----

    /** createConnectionSignalGroup; `wrapped` lists the bundle's keys. The caller's
        transaction rolls back on failure. */
    method CreateConnectionSignalGroup(h: Chat, wrapped: seq<WrappedKey>) returns (error: Option<Error>)
      requires !UsersRepeat(wrapped) && WrappedRows(wrapped) == h.bundle.wrapped
      modifies db`next, db`signals, db`secrets
      ensures var n := old(db.Tables());
        var o := CreateSignalGroup(n, h);
        error == Failure(o) && (o.Ok? ==> db.Tables() == o.value)
    {
      var sg := db.NewId();
      db.signals := db.signals[sg := SignalGroup(ByConnection(h.connection), true)];
      RowsOfAll(wrapped);
      if wrapped != [] {
        assert wrapped[0].user in Named(wrapped);
      } else {
        assert Named(wrapped) == {};
      }
      if h.adminOnly && h.proposerUser.Some? && Present(h.bundle.payload) && Present(h.bundle.iv) && |wrapped| > 0 {
        var secretRepo := new EncryptedSecretRepository(db);
        error := secretRepo.CreateTx(OfSignalGroup(sg), h.bundle.payload.value, h.bundle.iv.value, h.proposerUser.value, wrapped);
      } else {
        assert !BundleComplete(h);
        error := None;
      }
    }

    /** The stored keys of a bundle, row by row. */
    static method LoadWrappedKeys(stored: map<UserId, string>) returns (wrapped: seq<WrappedKey>)
      ensures !UsersRepeat(wrapped) && WrappedRows(wrapped) == stored
    {
      var rows := RowOrder(stored.Keys);
      RowOrderLists(stored.Keys);
      wrapped := [];
      var i := 0;
      while i < |rows|
        invariant 0 <= i <= |rows| && |wrapped| == i
        invariant forall k :: 0 <= k < i ==> rows[k] in stored && wrapped[k] == WrappedKey(rows[k], stored[rows[k]])
      {
        assert rows[i] in rows;
        wrapped := wrapped + [WrappedKey(rows[i], stored[rows[i]])];
        i := i + 1;
      }
      LoadedRows(stored, rows, wrapped);
    }

    static lemma LoadedRows(stored: map<UserId, string>, rows: seq<UserId>, wrapped: seq<WrappedKey>)
      requires |wrapped| == |rows| && (forall u :: u in rows <==> u in stored)
      requires forall i, j :: 0 <= i < j < |rows| ==> rows[i] < rows[j]
      requires forall k :: 0 <= k < |rows| ==> rows[k] in stored && wrapped[k] == WrappedKey(rows[k], stored[rows[k]])
      ensures !UsersRepeat(wrapped) && WrappedRows(wrapped) == stored
    {
      RowsOfAll(wrapped);
      forall u | u in stored
        ensures u in WrappedRows(wrapped) && WrappedRows(wrapped)[u] == stored[u]
      {
        var k :| 0 <= k < |rows| && rows[k] == u;
        RowsHoldKeys(wrapped, k);
      }
      forall u | u in Named(wrapped)
        ensures u in stored
      {
        var k :| 0 <= k < |wrapped| && wrapped[k].user == u;
        assert rows[k] == u;
      }
    }

    /** The query takes any one admin of the group. */
    method AdminOfGroup(g: GroupId) returns (admin: Option<UserId>)
      ensures AdminRow(db.Tables(), g, admin)
    {
      var admins := AdminsOf(db.Tables(), g);
      if admins == {} {
        return None;
      }
      var u :| u in admins;
      return Some(u);
    }

    /** `admin` is the row returned for an admin of the proposing group. */
    method ProposeSignalChat(c: ConnId, proposer: GroupId, req: ChatRequest, now: int)
      returns (error: Option<Error>, admin: Option<UserId>)
      modifies db
      ensures var n := old(db.Tables());
        var o := ProposeChat(n, c, proposer, req, admin, now);
        error == Failure(o) && db.Tables() == Left(n, o)
    {
      admin := None;
      if c !in db.conns {
        return Some(ConnectionNotFound), admin;
      }
      if proposer !in db.conns[c] {
        return Some(NotConnectionMember), admin;
      }
      if |ActiveSignals(db.Tables(), c)| >= MAX_SIGNAL_GROUPS {
        return Some(SignalGroupLimit), admin;
      }
      admin := AdminOfGroup(proposer);
      var ok, stored := StoreWrappedKeys(req.wrapped);
      if !ok || (admin.Some? && admin.value !in db.users) {
        return Some(ConstraintViolation), admin;
      }
      db.Begin();
      var votes := BallotFor(db.conns[c], proposer);
      var id := db.NewId();
      var chat := Chat(c, proposer, req.adminOnly, Bundle(req.payload, req.iv, stored), admin, Pending, votes, now + PROPOSAL_LIFETIME);
      db.chats := db.chats[id := chat];
      if |db.conns[c]| == 1 {
        error := CreateConnectionSignalGroup(chat, req.wrapped);
        if error.Some? {
          db.Rollback();
          return;
        }
        db.chats := db.chats[id := chat.(status := Accepted)];
      }
      return None, admin;
    }

    /** The wrapped keys of a bundle one after the other; a repeated user violates
        their primary key. */
    static method StoreWrappedKeys(wrapped: seq<WrappedKey>) returns (ok: bool, stored: map<UserId, string>)
      ensures ok == !UsersRepeat(wrapped) && (ok ==> stored == WrappedRows(wrapped))
    {
      stored := map[];
      var i := 0;
      while i < |wrapped|
        invariant 0 <= i <= |wrapped| && !UsersRepeat(wrapped[..i]) && stored == WrappedRows(wrapped[..i])
      {
        RepeatsStep(wrapped, i);
        WrappedRowsStep(wrapped, i);
        if wrapped[i].user in stored {
          return false, stored;
        }
        stored := stored[wrapped[i].user := wrapped[i].dek];
        i := i + 1;
      }
      assert wrapped[..i] == wrapped;
      ok := true;
    }

    /** One vote for each member group, the proposer's already approving. */
    static method BallotFor(members: set<GroupId>, proposer: GroupId) returns (votes: map<GroupId, Status>)
      ensures votes == OpeningVotes(members, proposer)
    {
      var rows := RowOrder(members);
      RowsOf(members);
      votes := map[];
      var i := 0;
      while i < |rows|
        invariant 0 <= i <= |rows|
        invariant votes.Keys == Listed(rows[..i])
        invariant forall g :: g in votes ==> votes[g] == if g == proposer then Accepted else Pending
      {
        ListedStep(rows, i);
        votes := votes[rows[i] := if rows[i] == proposer then Accepted else Pending];
        i := i + 1;
      }
      assert rows[..i] == rows;
      OpeningVotesOf(members, proposer, rows, votes);
    }

    /** Creating the signal group does not look at the chats. */
    static lemma CreationLeavesChats(n: Net, chats: map<ChatId, Chat>, h: Chat)
      ensures CreateSignalGroup(n.(chats := chats), h)
           == if CreateSignalGroup(n, h).Ok? then Ok(CreateSignalGroup(n, h).value.(chats := chats)) else CreateSignalGroup(n, h)
    {
    }

    method VoteOnChatProposal(h: ChatId, g: GroupId, approve: bool, now: int) returns (error: Option<Error>)
      modifies db
      ensures var n := old(db.Tables());
        var o := Vote(n, h, g, approve, now);
        error == Failure(o) && db.Tables() == Left(n, o)
      ensures error.None? ==> old(
        && h in db.chats && db.chats[h].status == Pending && now <= db.chats[h].expiresAt
        && g in db.chats[h].votes && db.chats[h].votes[g] == Pending)
    {
      if h !in db.chats {
        return Some(ChatNotFound);
      }
      var chat := db.chats[h];
      if chat.status != Pending || now > chat.expiresAt {
        return Some(ProposalNotPending);
      }
      if g !in chat.votes {
        return Some(GroupNotInProposal);
      }
      if chat.votes[g] != Pending {
        return Some(AlreadyResponded);
      }
      db.Begin();
      chat := chat.(votes := chat.votes[g := if approve then Accepted else Declined]);
      db.chats := db.chats[h := chat];
      if !approve {
        db.chats := db.chats[h := chat.(status := Declined)];
      } else if |WithStatus(chat.votes, Pending)| == 0 {
        var wrapped := LoadWrappedKeys(chat.bundle.wrapped);
        CreationLeavesChats(old(db.Tables()), db.chats, chat);
        error := CreateConnectionSignalGroup(chat, wrapped);
        if error.Some? {
          db.Rollback();
          return;
        }
        db.chats := db.chats[h := chat.(status := Accepted)];
      }
      return None;
    }
  }
}
