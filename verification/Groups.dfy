// One group's tables: members, user bans, trust vouches, invite links and
// direct invitations, and the transactions of GroupRepository that touch only
// that group (internal/database/groups.go).
module Groups {
  import opened Prelude

  datatype Member = Member(isAdmin: bool, founding: bool, trusted: bool)

  datatype Link = Link(maxUses: Option<int>, useCount: nat, expiresAt: Option<int>)

  datatype Invitation = Invitation(user: UserId, inviter: Option<UserId>, status: Status, expiresAt: Option<int>)

  datatype Group = Group(
    members: map<UserId, Member>,
    banned: set<UserId>,
    vouches: set<(UserId, UserId)>,   // (voucher, vouched)
    threshold: int,                   // trusted_vouch_threshold
    active: bool,                     // status 'active' as opposed to 'provisional'
    links: map<nat, Link>,
    invitations: map<nat, Invitation>,
    next: nat)                        // identifier supply for links and invitations

  const NEWCOMER := Member(false, false, false)
  const INVITATION_LIFETIME := 7 * 24 * 60 * 60

  function Users(g: Group): set<UserId> { g.members.Keys }

  function Admins(g: Group): set<UserId> {
    set u | u in g.members && g.members[u].isAdmin
  }

  function Trusted(g: Group): set<UserId> {
    set u | u in g.members && g.members[u].trusted
  }

  /** The users who have vouched for `u`. */
  function Vouchers(g: Group, u: UserId): set<UserId> {
    set v | v in g.vouches && v.1 == u :: v.0
  }

  predicate Past(deadline: Option<int>, now: int) {
    deadline.Some? && deadline.value < now
  }

  /** A group as its creation transaction leaves it. */
  function Founded(creator: UserId, threshold: int): Group {
    Group(map[creator := Member(true, true, false)], {}, {}, threshold, false, map[], map[], 0)
  }

  function CreateLink(g: Group, maxUses: Option<int>, expiresAt: Option<int>): Group {
    g.(links := g.links[g.next := Link(maxUses, 0, expiresAt)], next := g.next + 1)
  }

  function JoinViaLink(g: Group, token: nat, user: UserId, now: int): Result<Group, Error> {
    if token !in g.links then Err(LinkNotFound)
    else
      var link := g.links[token];
      if Past(link.expiresAt, now) then Err(LinkExpired)
      else if link.maxUses.Some? && link.useCount >= link.maxUses.value then Err(LinkExhausted)
      else if user in g.banned then Err(UserBanned)
      else if user in g.members then Err(AlreadyMember)
      else Ok(g.(members := g.members[user := NEWCOMER],
                 links := g.links[token := link.(useCount := link.useCount + 1)]))
  }

  /** Another invitation of the same user already holds `status`: the unique key
      on (group, user, status) then rejects a second row with it. */
  predicate StatusTaken(g: Group, user: UserId, status: Status, except: nat) {
    exists i :: i in g.invitations && i != except && g.invitations[i].user == user && g.invitations[i].status == status
  }

  function CreateInvitation(g: Group, user: UserId, inviter: UserId, now: int): Result<Group, Error> {
    if exists i :: i in g.invitations && g.invitations[i].user == user && g.invitations[i].status == Pending
                   && (g.invitations[i].expiresAt.None? || g.invitations[i].expiresAt.value > now) then
      Err(InvitationAlreadyPending)
    else if StatusTaken(g, user, Pending, g.next) then Err(ConstraintViolation)
    else Ok(g.(invitations := g.invitations[g.next := Invitation(user, Some(inviter), Pending, Some(now + INVITATION_LIFETIME))],
               next := g.next + 1))
  }

  /** The handler asks first whether the inviter is a member or a superuser, and
      whether the user is banned or a member. */
  function InviteUser(g: Group, user: UserId, inviter: UserId, superusers: set<UserId>, now: int): Result<Group, Error> {
    if inviter !in g.members && inviter !in superusers then Err(Forbidden)
    else if user in g.banned then Err(UserBanned)
    else if user in g.members then Err(AlreadyMember)
    else CreateInvitation(g, user, inviter, now)
  }

  function DeclineInvitation(g: Group, id: nat, user: UserId, now: int): Result<Group, Error> {
    if id !in g.invitations then Err(InvitationNotFound)
    else
      var inv := g.invitations[id];
      if inv.user != user || inv.status != Pending then Err(InvitationNotFound)
      else if Past(inv.expiresAt, now) then Err(InvitationExpired)
      else if StatusTaken(g, user, Declined, id) then Err(ConstraintViolation)
      else Ok(g.(invitations := g.invitations[id := inv.(status := Declined)]))
  }

  function AcceptInvitation(g: Group, id: nat, user: UserId, superusers: set<UserId>, now: int): Result<Group, Error> {
    if id !in g.invitations then Err(InvitationNotFound)
    else
      var inv := g.invitations[id];
      if inv.user != user || inv.status != Pending then Err(InvitationNotFound)
      else if Past(inv.expiresAt, now) then Err(InvitationExpired)
      else if user in g.banned then Err(UserBanned)
      else if inv.inviter.Some? && inv.inviter.value !in g.members && inv.inviter.value !in superusers then Err(InviterLeft)
      else if StatusTaken(g, user, Accepted, id) then Err(ConstraintViolation)
      else if user in g.members then Err(AlreadyMember)
      else Ok(g.(invitations := g.invitations[id := inv.(status := Accepted)],
                 members := g.members[user := NEWCOMER]))
  }

  function RemoveMember(g: Group, user: UserId): Group {
    g.(members := g.members - {user})
  }

  /** The handler lets a member leave unless it is the only admin. */
  function LeaveGroup(g: Group, user: UserId): Result<Group, Error> {
    if user !in g.members then Err(NotMember)
    else if g.members[user].isAdmin && |Admins(g)| <= 1 then Err(LastAdmin)
    else Ok(RemoveMember(g, user))
  }

  function BlockAndRemoveMember(g: Group, user: UserId): Group {
    RemoveMember(g.(banned := g.banned + {user}), user)
  }

  function UnblockUser(g: Group, user: UserId): Group {
    g.(banned := g.banned - {user})
  }

  predicate MayVouch(g: Group, user: UserId) {
    user in g.members && (g.members[user].trusted || g.members[user].isAdmin)
  }

  function CreateTrustVouch(g: Group, voucher: UserId, vouched: UserId): Result<Group, Error> {
    if voucher == vouched then Err(SelfVouch)
    else if !MayVouch(g, voucher) then Err(NotTrustedOrAdmin)
    else if vouched !in g.members then Err(GroupNotFound)
    else if (voucher, vouched) in g.vouches then Err(AlreadyVouched)
    else
      var g' := g.(vouches := g.vouches + {(voucher, vouched)});
      Ok(if |Vouchers(g', vouched)| >= g.threshold
         then g'.(members := g.members[vouched := g.members[vouched].(trusted := true)])
         else g')
  }

  /** CheckAndGraduate: a provisional group with enough members becomes active and
      its founding members become admins. */
  function Graduate(g: Group, foundingThreshold: int): Group {
    if g.active || |g.members| < foundingThreshold then g
    else g.(active := true,
            members := map u | u in g.members ::
              if g.members[u].founding then g.members[u].(isAdmin := true) else g.members[u])
  }

  /** What deleting a user does here: the foreign keys delete the user's rows and
      forget who an invitation came from. */
  function ForgetUser(g: Group, user: UserId): Group {
    g.(members := g.members - {user},
       banned := g.banned - {user},
       vouches := (set v | v in g.vouches && v.0 != user && v.1 != user),
       invitations := map i | i in g.invitations && g.invitations[i].user != user ::
         if g.invitations[i].inviter == Some(user) then g.invitations[i].(inviter := None) else g.invitations[i])
  }

  datatype Event =
    | AddLink(maxUses: Option<int>, linkExpiresAt: Option<int>)
    | Join(token: nat, joiner: UserId, now: int)
    | Invite(invitee: UserId, inviter: UserId, superusers: set<UserId>, now: int)
    | Accept(id: nat, accepter: UserId, superusers: set<UserId>, now: int)
    | Decline(id: nat, decliner: UserId, now: int)
    | Leave(user: UserId)
    | Ban(user: UserId)
    | Unban(user: UserId)
    | Vouch(voucher: UserId, vouched: UserId)
    | CheckGraduation(foundingThreshold: int)
    | Forget(user: UserId)

  /** The users a step inserts a row for; each must exist. */
  function Named(e: Event): set<UserId> {
    match e
    case Join(_, user, _) => {user}
    case Invite(user, _, _, _) => {user}
    case Accept(_, user, _, _) => {user}
    case Ban(user) => {user}
    case _ => {}
  }

  function Outcome(g: Group, e: Event): Result<Group, Error> {
    match e
    case AddLink(uses, at) => Ok(CreateLink(g, uses, at))
    case Join(token, user, now) => JoinViaLink(g, token, user, now)
    case Invite(user, inviter, superusers, now) => InviteUser(g, user, inviter, superusers, now)
    case Accept(id, user, superusers, now) => AcceptInvitation(g, id, user, superusers, now)
    case Decline(id, user, now) => DeclineInvitation(g, id, user, now)
    case Leave(user) => LeaveGroup(g, user)
    case Ban(user) => Ok(BlockAndRemoveMember(g, user))
    case Unban(user) => Ok(UnblockUser(g, user))
    case Vouch(a, b) => CreateTrustVouch(g, a, b)
    case CheckGraduation(t) => Ok(Graduate(g, t))
    case Forget(user) => Ok(ForgetUser(g, user))
  }

  /** One transaction: it commits its outcome or leaves the group as it was. */
  function Step(g: Group, e: Event): Group {
    var o := Outcome(g, e);
    if o.Ok? then o.value else g
  }

  function Run(g: Group, es: seq<Event>): Group
    decreases |es|
  {
    if es == [] then g else Run(Step(g, es[0]), es[1..])
  }
}
