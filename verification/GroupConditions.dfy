// When each transaction on one group succeeds and what it writes, spelled out on the
// rows, and what bans and link limits mean over whole histories
// (internal/database/groups.go, internal/handlers/groups.go).
module GroupConditions {
  import opened Prelude
  import opened Groups
  import opened GroupHistory

  /** A join succeeds exactly when the link exists, is not past its deadline and has
      uses left, and the user is neither banned nor a member. It makes an ordinary
      member and uses the link once. */
  lemma JoinIff(g: Group, token: nat, user: UserId, now: int)
    ensures JoinViaLink(g, token, user, now).Ok? <==>
      && token in g.links
      && (g.links[token].expiresAt.Some? ==> now <= g.links[token].expiresAt.value)
      && (g.links[token].maxUses.Some? ==> g.links[token].useCount < g.links[token].maxUses.value)
      && user !in g.banned && user !in g.members
    ensures JoinViaLink(g, token, user, now).Err? ==>
      JoinViaLink(g, token, user, now).error ==
        if token !in g.links then LinkNotFound
        else if g.links[token].expiresAt.Some? && g.links[token].expiresAt.value < now then LinkExpired
        else if g.links[token].maxUses.Some? && g.links[token].maxUses.value <= g.links[token].useCount then LinkExhausted
        else if user in g.banned then UserBanned
        else AlreadyMember
    ensures JoinViaLink(g, token, user, now).Ok? ==>
      JoinViaLink(g, token, user, now).value ==
        g.(members := g.members[user := Member(false, false, false)],
           links := g.links[token := Link(g.links[token].maxUses, g.links[token].useCount + 1, g.links[token].expiresAt)])
  {
  }

  /** A link made for `k` uses lets at most `k` users in, in any history. */
  lemma LinkAdmitsAtMost(g: Group, k: nat, expiresAt: Option<int>, es: seq<Event>)
    requires Sound(g)
    ensures SuccessfulJoins(CreateLink(g, Some(k), expiresAt), es, g.next) <= k
  {
    var g1 := CreateLink(g, Some(k), expiresAt);
    SoundStep(g, AddLink(Some(k), expiresAt));
    LinkUsesAreJoins(g1, es, g.next);
    SoundThroughout(g1, es);
    LinkLimitStays(g1, es, g.next);
  }

  /** A link made with a deadline lets nobody in after it, in any history. */
  lemma NoLateJoin(g: Group, maxUses: Option<int>, deadline: int, es: seq<Event>, user: UserId, now: int)
    requires Sound(g) && now > deadline
    ensures JoinViaLink(Run(CreateLink(g, maxUses, Some(deadline)), es), g.next, user, now) == Err(LinkExpired)
  {
    SoundStep(g, AddLink(maxUses, Some(deadline)));
    LinkLimitStays(CreateLink(g, maxUses, Some(deadline)), es, g.next);
  }

  lemma {:induction false} LinkLimitStays(g: Group, es: seq<Event>, token: nat)
    requires IdsIssued(g) && token in g.links
    ensures token in Run(g, es).links
    ensures Run(g, es).links[token].maxUses == g.links[token].maxUses && Run(g, es).links[token].expiresAt == g.links[token].expiresAt
    decreases |es|
  {
    if es != [] {
      LinkUsesStep(g, es[0], token);
      LinkLimitStep(g, es[0], token);
      IdsStayIssued(g, es[0]);
      LinkLimitStays(Step(g, es[0]), es[1..], token);
    }
  }

  lemma LinkLimitStep(g: Group, e: Event, token: nat)
    requires IdsIssued(g) && token in g.links
    ensures token in Step(g, e).links
    ensures Step(g, e).links[token].maxUses == g.links[token].maxUses && Step(g, e).links[token].expiresAt == g.links[token].expiresAt
  {
  }

  /** Declining succeeds exactly when the invitation is the user's, pending and not
      past its deadline, and the user has no other declined one to this group. It
      marks that row and changes nothing else. */
  lemma DeclineIff(g: Group, id: nat, user: UserId, now: int)
    ensures DeclineInvitation(g, id, user, now).Ok? <==>
      && id in g.invitations && g.invitations[id].user == user && g.invitations[id].status == Pending
      && (g.invitations[id].expiresAt.Some? ==> now <= g.invitations[id].expiresAt.value)
      && forall j :: j in g.invitations && g.invitations[j].user == user ==> g.invitations[j].status != Declined
    ensures DeclineInvitation(g, id, user, now).Err? ==>
      DeclineInvitation(g, id, user, now).error ==
        if !(id in g.invitations && g.invitations[id].user == user && g.invitations[id].status == Pending) then InvitationNotFound
        else if g.invitations[id].expiresAt.Some? && g.invitations[id].expiresAt.value < now then InvitationExpired
        else ConstraintViolation
    ensures DeclineInvitation(g, id, user, now).Ok? ==>
      DeclineInvitation(g, id, user, now).value ==
        g.(invitations := g.invitations[id := Invitation(user, g.invitations[id].inviter, Declined, g.invitations[id].expiresAt)])
  {
    if id in g.invitations && g.invitations[id].user == user && g.invitations[id].status == Pending {
      if j :| j in g.invitations && g.invitations[j].user == user && g.invitations[j].status == Declined {
        assert StatusTaken(g, user, Declined, id);
      }
    }
  }

  /** A member may leave exactly when it is no admin or somebody else is one. */
  lemma LeaveIff(g: Group, user: UserId)
    ensures LeaveGroup(g, user).Ok? <==>
      && user in g.members
      && (g.members[user].isAdmin ==> exists v :: v in g.members && v != user && g.members[v].isAdmin)
    ensures LeaveGroup(g, user).Err? ==> LeaveGroup(g, user).error == if user !in g.members then NotMember else LastAdmin
    ensures LeaveGroup(g, user).Ok? ==> LeaveGroup(g, user).value == g.(members := g.members - {user})
  {
    if user in g.members && g.members[user].isAdmin {
      if v :| v in g.members && v != user && g.members[v].isAdmin {
        SubsetSize({user, v}, Admins(g));
      } else {
        assert Admins(g) == {user};
      }
    }
  }

  /** A vouch is cast exactly by a trusted member or admin for another member it has
      not vouched for; the other becomes trusted exactly when it was or now has the
      threshold of vouchers. */
  lemma VouchIff(g: Group, voucher: UserId, vouched: UserId)
    ensures CreateTrustVouch(g, voucher, vouched).Ok? <==>
      && voucher != vouched && voucher in g.members && (g.members[voucher].trusted || g.members[voucher].isAdmin)
      && vouched in g.members && (voucher, vouched) !in g.vouches
    ensures CreateTrustVouch(g, voucher, vouched).Err? ==>
      CreateTrustVouch(g, voucher, vouched).error ==
        if voucher == vouched then SelfVouch
        else if !(voucher in g.members && (g.members[voucher].trusted || g.members[voucher].isAdmin)) then NotTrustedOrAdmin
        else if vouched !in g.members then GroupNotFound
        else AlreadyVouched
    ensures CreateTrustVouch(g, voucher, vouched).Ok? ==>
      var g' := CreateTrustVouch(g, voucher, vouched).value;
      var vouchers := set v | v in g'.vouches && v.1 == vouched :: v.0;
      && g'.vouches == g.vouches + {(voucher, vouched)}
      && g' == g.(vouches := g'.vouches, members := g'.members)
      && g'.members == g.members[vouched := g.members[vouched].(trusted := g.members[vouched].trusted || |vouchers| >= g.threshold)]
  {
    if CreateTrustVouch(g, voucher, vouched).Ok? {
      var g' := CreateTrustVouch(g, voucher, vouched).value;
      assert Vouchers(g', vouched) == Vouchers(g.(vouches := g.vouches + {(voucher, vouched)}), vouched);
      assert g.members[vouched].(trusted := g.members[vouched].trusted) == g.members[vouched];
      assert g.members[vouched := g.members[vouched]] == g.members;
    }
  }

  /** A group graduates exactly when it has the members it takes; its founding members
      are admins from then on. */
  lemma GraduateIff(g: Group, foundingThreshold: int)
    ensures var g' := Graduate(g, foundingThreshold);
      && (g'.active <==> g.active || |g.members| >= foundingThreshold)
      && g' == g.(active := g'.active, members := g'.members) && g'.members.Keys == g.members.Keys
      && forall u :: u in g.members ==>
           g'.members[u] == g.members[u].(isAdmin := g.members[u].isAdmin || (!g.active && g'.active && g.members[u].founding))
  {
  }

  /** Deleting a user takes its membership, its ban, the vouches by and for it and the
      invitations for it; those it sent stay and forget who sent them. */
  lemma ForgetWrites(g: Group, user: UserId)
    ensures var g' := ForgetUser(g, user);
      && g' == g.(members := g.members - {user}, banned := g.banned - {user}, vouches := g'.vouches, invitations := g'.invitations)
      && (forall a, b :: (a, b) in g'.vouches <==> (a, b) in g.vouches && a != user && b != user)
      && (forall i :: i in g'.invitations <==> i in g.invitations && g.invitations[i].user != user)
      && forall i :: i in g'.invitations ==>
           var inv := g.invitations[i];
           g'.invitations[i] == Invitation(inv.user, if inv.inviter == Some(user) then None else inv.inviter, inv.status, inv.expiresAt)
  {
  }

  // ---- Bans ----

  predicate NotLifted(es: seq<Event>, user: UserId) {
    forall i :: 0 <= i < |es| ==> es[i] != Unban(user) && es[i] != Forget(user)
  }

  lemma BannedStep(g: Group, e: Event, user: UserId)
    requires user in g.banned && user !in g.members && e != Unban(user) && e != Forget(user)
    ensures user in Step(g, e).banned && user !in Step(g, e).members
  {
  }

  lemma {:induction false} BannedThroughout(g: Group, es: seq<Event>, user: UserId)
    requires user in g.banned && user !in g.members && NotLifted(es, user)
    ensures user in Run(g, es).banned && user !in Run(g, es).members
    decreases |es|
  {
    if es != [] {
      BannedStep(g, es[0], user);
      assert forall i :: 0 <= i < |es[1..]| ==> es[1..][i] == es[i + 1];
      BannedThroughout(Step(g, es[0]), es[1..], user);
    }
  }

  /** A banned user is out at once and stays out, whatever links, invitations and
      vouches there are, until the ban is lifted or the user deleted. */
  lemma BannedStaysOut(g: Group, user: UserId, es: seq<Event>)
    requires NotLifted(es, user)
    ensures user !in Run(Step(g, Ban(user)), es).members && user in Run(Step(g, Ban(user)), es).banned
  {
    BannedThroughout(Step(g, Ban(user)), es, user);
  }

  /** Lifting a ban brings nobody back and changes nothing else. */
  lemma LiftingWrites(g: Group, user: UserId)
    ensures Step(g, Unban(user)) == g.(banned := Step(g, Unban(user)).banned)
    ensures forall u :: u in Step(g, Unban(user)).banned <==> u in g.banned && u != user
  {
  }
}
