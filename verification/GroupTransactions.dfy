// GroupRepository: joins, invitations, bans, trust vouches and group blocks as
// statements on the tables (internal/database/groups.go).
module GroupTransactions {
  import opened Prelude
  import opened Network
  import opened Database
  import opened Eviction
  import opened SecretTransactions
  import opened ConnectionTransactions
  import G = Groups

  class GroupRepository {
    const db: DB

    constructor (db: DB)
      ensures this.db == db
    {
      this.db := db;
    }

    method JoinViaInviteLink(g: GroupId, token: nat, user: UserId, now: int) returns (error: Option<Error>)
      modifies db
      ensures var n := old(db.Tables());
        var o := InGroup(n, g, G.Join(token, user, now));
        error == Failure(o) && db.Tables() == Left(n, o)
    {
      if g !in db.groups {
        return Some(GroupNotFound);
      }
      var group := db.groups[g];
      if token !in group.links {
        return Some(LinkNotFound);
      }
      var link := group.links[token];
      if link.expiresAt.Some? && link.expiresAt.value < now {
        return Some(LinkExpired);
      }
      if link.maxUses.Some? && link.useCount >= link.maxUses.value {
        return Some(LinkExhausted);
      }
      if user in group.banned {
        return Some(UserBanned);
      }
      if user in group.members {
        return Some(AlreadyMember);
      }
      if user !in db.users {
        return Some(ConstraintViolation);
      }
      db.groups := db.groups[g := group.(members := group.members[user := G.NEWCOMER])];
      group := db.groups[g];
      db.groups := db.groups[g := group.(links := group.links[token := link.(useCount := link.useCount + 1)])];
      return None;
    }

    /** The handler's checks, the look-up of an open invitation, and the insert. */
    method CreateInvitation(g: GroupId, user: UserId, inviter: UserId, superusers: set<UserId>, now: int) returns (error: Option<Error>)
      modifies db
      ensures var n := old(db.Tables());
        var o := InGroup(n, g, G.Invite(user, inviter, superusers, now));
        error == Failure(o) && db.Tables() == Left(n, o)
    {
      if g !in db.groups {
        return Some(GroupNotFound);
      }
      var group := db.groups[g];
      if inviter !in group.members && inviter !in superusers {
        return Some(Forbidden);
      }
      if user in group.banned {
        return Some(UserBanned);
      }
      if user in group.members {
        return Some(AlreadyMember);
      }
      if exists i :: i in group.invitations && group.invitations[i].user == user && group.invitations[i].status == Pending
                     && (group.invitations[i].expiresAt.None? || group.invitations[i].expiresAt.value > now) {
        return Some(InvitationAlreadyPending);
      }
      if G.StatusTaken(group, user, Pending, group.next) || user !in db.users {
        return Some(ConstraintViolation);
      }
      var invitation := G.Invitation(user, Some(inviter), Pending, Some(now + G.INVITATION_LIFETIME));
      db.groups := db.groups[g := group.(invitations := group.invitations[group.next := invitation], next := group.next + 1)];
      return None;
    }

    method DeclineInvitation(g: GroupId, id: nat, user: UserId, now: int) returns (error: Option<Error>)
      modifies db
      ensures var n := old(db.Tables());
        var o := InGroup(n, g, G.Decline(id, user, now));
        error == Failure(o) && db.Tables() == Left(n, o)
    {
      if g !in db.groups {
        return Some(GroupNotFound);
      }
      var group := db.groups[g];
      if id !in group.invitations || group.invitations[id].user != user || group.invitations[id].status != Pending {
        return Some(InvitationNotFound);
      }
      if G.Past(group.invitations[id].expiresAt, now) {
        return Some(InvitationExpired);
      }
      if G.StatusTaken(group, user, Declined, id) {
        return Some(ConstraintViolation);
      }
      db.groups := db.groups[g := group.(invitations := group.invitations[id := group.invitations[id].(status := Declined)])];
      return None;
    }

    /** The invitation is marked before the member row is inserted; when that row
        exists already, the mark is rolled back. */
    method AcceptInvitation(g: GroupId, id: nat, user: UserId, superusers: set<UserId>, now: int) returns (error: Option<Error>)
      modifies db
      ensures var n := old(db.Tables());
        var o := InGroup(n, g, G.Accept(id, user, superusers, now));
        error == Failure(o) && db.Tables() == Left(n, o)
    {
      if g !in db.groups {
        return Some(GroupNotFound);
      }
      var group := db.groups[g];
      if id !in group.invitations || group.invitations[id].user != user || group.invitations[id].status != Pending {
        return Some(InvitationNotFound);
      }
      var invitation := group.invitations[id];
      if G.Past(invitation.expiresAt, now) {
        return Some(InvitationExpired);
      }
      if user in group.banned {
        return Some(UserBanned);
      }
      if invitation.inviter.Some? && invitation.inviter.value !in group.members && invitation.inviter.value !in superusers {
        return Some(InviterLeft);
      }
      if G.StatusTaken(group, user, Accepted, id) {
        return Some(ConstraintViolation);
      }
      db.Begin();
      db.groups := db.groups[g := group.(invitations := group.invitations[id := invitation.(status := Accepted)])];
      group := db.groups[g];
      if user in group.members {
        db.Rollback();
        return Some(AlreadyMember);
      }
      if user !in db.users {
        db.Rollback();
        return Some(ConstraintViolation);
      }
      db.groups := db.groups[g := group.(members := group.members[user := G.NEWCOMER])];
      return None;
    }

    /** Where there is no such group the statements delete nothing. */
    method RemoveMember(g: GroupId, user: UserId) returns (error: Option<Error>)
      modifies db
      ensures error.None? && db.Tables() == RemoveFromGroup(old(db.Tables()), g, user)
    {
      if g in db.groups {
        db.groups := db.groups[g := db.groups[g].(members := db.groups[g].members - {user})];
      }
      var secretRepo := new EncryptedSecretRepository(db);
      secretRepo.RevokeGroupSecretKeysForUser(g, user);
      return None;
    }

    method BlockAndRemoveMember(g: GroupId, user: UserId) returns (error: Option<Error>)
      modifies db
      ensures var n := old(db.Tables());
        var o := InGroup(n, g, G.Ban(user));
        error == Failure(o) && db.Tables() == Left(n, o)
    {
      if g !in db.groups {
        return Some(GroupNotFound);
      }
      if user !in db.users {
        return Some(ConstraintViolation);
      }
      db.groups := db.groups[g := db.groups[g].(banned := db.groups[g].banned + {user})];
      db.groups := db.groups[g := db.groups[g].(members := db.groups[g].members - {user})];
      var secretRepo := new EncryptedSecretRepository(db);
      secretRepo.RevokeGroupSecretKeysForUser(g, user);
      return None;
    }

    /** The vouch is inserted first; the count that decides the promotion includes it. */
    method CreateTrustVouch(g: GroupId, voucher: UserId, vouched: UserId) returns (error: Option<Error>)
      modifies db
      ensures var n := old(db.Tables());
        var o := InGroup(n, g, G.Vouch(voucher, vouched));
        error == Failure(o) && db.Tables() == Left(n, o)
    {
      if g !in db.groups {
        return Some(GroupNotFound);
      }
      if voucher == vouched {
        return Some(SelfVouch);
      }
      var group := db.groups[g];
      if !G.MayVouch(group, voucher) {
        return Some(NotTrustedOrAdmin);
      }
      if vouched !in group.members {
        return Some(GroupNotFound);
      }
      if (voucher, vouched) in group.vouches {
        return Some(AlreadyVouched);
      }
      group := group.(vouches := group.vouches + {(voucher, vouched)});
      db.groups := db.groups[g := group];
      if |G.Vouchers(group, vouched)| >= group.threshold {
        db.groups := db.groups[g := group.(members := group.members[vouched := group.members[vouched].(trusted := true)])];
      }
      return None;
    }

    method BlockGroup(blocker: GroupId, blocked: GroupId) returns (error: Option<Error>)
      modifies db
      ensures var n := old(db.Tables());
        var o := Block(n, blocker, blocked);
        error == Failure(o) && db.Tables() == Left(n, o)
    {
      if blocker == blocked {
        return Some(CannotBlockSelf);
      }
      if (blocker, blocked) in db.blocks {
        return Some(AlreadyBlocked);
      }
      if blocker !in db.groups || blocked !in db.groups {
        return Some(ConstraintViolation);
      }
      ghost var n := db.Tables();
      db.blocks := db.blocks + {(blocker, blocked)};
      BlockIsEviction(n, blocker, blocked);
      assert SharedConnections(db.Tables(), blocker, blocked) == SharedConnections(n, blocker, blocked);
      EvictBlockedFromSharedConnections(blocker, blocked);
      return None;
    }

    /** The shared connections are listed first, then left one after the other. */
    method EvictBlockedFromSharedConnections(blocker: GroupId, blocked: GroupId)
      modifies db
      ensures db.Tables() == Evicted(old(db.Tables()), SharedConnections(old(db.Tables()), blocker, blocked), blocked)
    {
      ghost var n := db.Tables();
      var shared := SharedConnections(db.Tables(), blocker, blocked);
      var rows := RowOrder(shared);
      RowOrderLists(shared);
      RowsOf(shared);
      var connections := new ConnectionRepository(db);
      var i := 0;
      while i < |rows|
        invariant 0 <= i <= |rows|
        invariant EvictEach(db.Tables(), rows[i..], blocked) == EvictEach(n, rows, blocked)
      {
        assert rows[i..][1..] == rows[i + 1..];
        connections.RemoveMember(rows[i], blocked);
        i := i + 1;
      }
      assert forall k :: 0 <= k < |rows| ==> rows[k] in rows;
      EvictEachIsEviction(n, rows, blocked);
    }

    method UnblockGroup(blocker: GroupId, blocked: GroupId) returns (error: Option<Error>)
      modifies db
      ensures var n := old(db.Tables());
        var o := Unblock(n, blocker, blocked);
        error == Failure(o) && db.Tables() == Left(n, o)
    {
      var before := |db.blocks|;
      db.blocks := db.blocks - {(blocker, blocked)};
      if |db.blocks| == before {
        SubsetSize(db.blocks, old(db.blocks));
        return Some(GroupNotFound);
      }
      return None;
    }
  }
}
