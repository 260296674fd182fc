// What every history of one group's transactions keeps: bans and membership,
// link accounting, invitation statuses, and trust grounded in admins.
module GroupHistory {
  import opened Prelude
  import opened Groups

  /** Running a history in two parts is running it whole. */
  lemma {:induction false} RunAppend(g: Group, before: seq<Event>, after: seq<Event>)
    ensures Run(g, before + after) == Run(Run(g, before), after)
    decreases |before|
  {
    if before == [] {
      assert before + after == after;
    } else {
      assert (before + after)[1..] == before[1..] + after;
      RunAppend(Step(g, before[0]), before[1..], after);
    }
  }

  // ---- Invariants of every reachable group ----

  ghost predicate BansHold(g: Group) {
    g.members.Keys !! g.banned
  }

  ghost predicate LinksWithinLimits(g: Group) {
    forall t :: t in g.links && g.links[t].maxUses.Some? && g.links[t].useCount > 0
      ==> g.links[t].useCount <= g.links[t].maxUses.value
  }

  /** The unique key on (group, user, status). */
  ghost predicate InvitationsUnique(g: Group) {
    forall i, j :: i in g.invitations && j in g.invitations && i != j && g.invitations[i].user == g.invitations[j].user
      ==> g.invitations[i].status != g.invitations[j].status
  }

  ghost predicate IdsIssued(g: Group) {
    && (forall t :: t in g.links ==> t < g.next)
    && (forall i :: i in g.invitations ==> i < g.next)
  }

  ghost predicate NobodyVouchesForSelf(g: Group) {
    forall v :: v in g.vouches ==> v.0 != v.1
  }

  ghost predicate Sound(g: Group) {
    BansHold(g) && LinksWithinLimits(g) && InvitationsUnique(g) && IdsIssued(g) && NobodyVouchesForSelf(g)
  }

  lemma IdsStayIssued(g: Group, e: Event)
    requires IdsIssued(g)
    ensures IdsIssued(Step(g, e)) && Step(g, e).next >= g.next
  {
  }

  lemma AnswersStayUnique(g: Group, e: Event)
    requires InvitationsUnique(g) && (e.Accept? || e.Decline?)
    ensures InvitationsUnique(Step(g, e))
  {
  }

  lemma InvitingStaysUnique(g: Group, e: Event)
    requires InvitationsUnique(g) && IdsIssued(g) && e.Invite?
    ensures InvitationsUnique(Step(g, e))
  {
  }

  lemma InvitationsStep(g: Group, e: Event)
    requires InvitationsUnique(g) && IdsIssued(g)
    ensures InvitationsUnique(Step(g, e)) && IdsIssued(Step(g, e))
  {
    IdsStayIssued(g, e);
    if e.Accept? || e.Decline? {
      AnswersStayUnique(g, e);
    } else if e.Invite? {
      InvitingStaysUnique(g, e);
    }
  }

  lemma MembersStep(g: Group, e: Event)
    requires BansHold(g) && LinksWithinLimits(g) && IdsIssued(g) && NobodyVouchesForSelf(g)
    ensures BansHold(Step(g, e)) && LinksWithinLimits(Step(g, e)) && NobodyVouchesForSelf(Step(g, e))
  {
  }

  lemma SoundStep(g: Group, e: Event)
    requires Sound(g)
    ensures Sound(Step(g, e))
  {
    InvitationsStep(g, e);
    MembersStep(g, e);
  }

  /** Every history keeps all five invariants. */
  lemma {:induction false} SoundThroughout(g: Group, es: seq<Event>)
    requires Sound(g)
    ensures Sound(Run(g, es))
    decreases |es|
  {
    if es != [] {
      SoundStep(g, es[0]);
      SoundThroughout(Step(g, es[0]), es[1..]);
    }
  }

  /** So every state a newly founded group can reach has them. */
  lemma ReachableIsSound(creator: UserId, threshold: int, es: seq<Event>)
    ensures Sound(Run(Founded(creator, threshold), es))
  {
    SoundThroughout(Founded(creator, threshold), es);
  }

  // ---- Link accounting ----

  /** The joins through `token` that succeed in a history. */
  ghost function SuccessfulJoins(g: Group, es: seq<Event>, token: nat): nat
    decreases |es|
  {
    if es == [] then 0
    else (if es[0].Join? && es[0].token == token && Outcome(g, es[0]).Ok? then 1 else 0)
         + SuccessfulJoins(Step(g, es[0]), es[1..], token)
  }

  lemma LinkUsesStep(g: Group, e: Event, token: nat)
    requires IdsIssued(g) && token in g.links
    ensures token in Step(g, e).links
    ensures Step(g, e).links[token].useCount
         == g.links[token].useCount + if e.Join? && e.token == token && Outcome(g, e).Ok? then 1 else 0
  {
  }

  /** A link's use count grows by exactly the joins that succeed through it: a
      refused join burns no use and a successful one burns exactly one. */
  lemma {:induction false} LinkUsesAreJoins(g: Group, es: seq<Event>, token: nat)
    requires IdsIssued(g) && token in g.links
    ensures token in Run(g, es).links
    ensures Run(g, es).links[token].useCount == g.links[token].useCount + SuccessfulJoins(g, es, token)
    decreases |es|
  {
    if es != [] {
      LinkUsesStep(g, es[0], token);
      IdsStayIssued(g, es[0]);
      LinkUsesAreJoins(Step(g, es[0]), es[1..], token);
    }
  }

  // ---- Invitations ----

  /** The user's row is not deleted in the history. */
  predicate NotForgotten(es: seq<Event>, user: UserId) {
    forall i :: 0 <= i < |es| ==> es[i] != Forget(user)
  }

  lemma NotForgottenAfter(es: seq<Event>, user: UserId)
    requires NotForgotten(es, user) && es != []
    ensures NotForgotten(es[1..], user)
  {
    assert forall i :: 0 <= i < |es[1..]| ==> es[1..][i] == es[i + 1];
  }

  /** An invitation's answer, which no later step changes. */
  ghost predicate Answered(g: Group, id: nat, user: UserId, status: Status) {
    id in g.invitations && g.invitations[id].user == user && g.invitations[id].status == status
  }

  /** An invitation is rewritten only by its own answer. */
  lemma InvitationRowStays(g: Group, e: Event, id: nat)
    requires id in g.invitations && id != g.next && !e.Forget?
    requires !(e.Accept? && e.id == id) && !(e.Decline? && e.id == id)
    ensures id in Step(g, e).invitations && Step(g, e).invitations[id] == g.invitations[id]
  {
  }

  lemma AnswerStays(g: Group, e: Event, id: nat, user: UserId, status: Status)
    requires IdsIssued(g) && Answered(g, id, user, status) && status != Pending && e != Forget(user)
    ensures IdsIssued(Step(g, e)) && Answered(Step(g, e), id, user, status)
  {
    IdsStayIssued(g, e);
    if e.Forget? {
      ForgettingKeepsAnswer(g, e.user, id, user, status);
    } else if (e.Accept? && e.id == id) || (e.Decline? && e.id == id) {
      assert Outcome(g, e) == Err(InvitationNotFound);
    } else {
      InvitationRowStays(g, e, id);
    }
  }

  lemma ForgettingKeepsAnswer(g: Group, other: UserId, id: nat, user: UserId, status: Status)
    requires Answered(g, id, user, status) && other != user
    ensures Answered(ForgetUser(g, other), id, user, status)
  {
  }

  lemma {:induction false} AcceptedRowStays(g: Group, es: seq<Event>, id: nat, user: UserId, status: Status)
    requires IdsIssued(g) && Answered(g, id, user, status) && status != Pending && NotForgotten(es, user)
    ensures Answered(Run(g, es), id, user, status)
    decreases |es|
  {
    if es != [] {
      AnswerStays(g, es[0], id, user, status);
      NotForgottenAfter(es, user);
      AcceptedRowStays(Step(g, es[0]), es[1..], id, user, status);
    }
  }

  /** Accepting succeeds exactly when the invitation is this user's, pending and
      unexpired, the user is neither banned nor a member, the inviter still
      stands, and the user has accepted no other invitation to this group; the
      user is then an ordinary member, and nothing but that row and that mark changed. */
  lemma AcceptSucceedsIff(g: Group, id: nat, user: UserId, superusers: set<UserId>, now: int)
    requires Sound(g)
    ensures AcceptInvitation(g, id, user, superusers, now).Ok? <==>
      && id in g.invitations && g.invitations[id].user == user && g.invitations[id].status == Pending
      && (g.invitations[id].expiresAt.Some? ==> now <= g.invitations[id].expiresAt.value)
      && user !in g.banned && user !in g.members
      && (g.invitations[id].inviter.Some? ==>
            g.invitations[id].inviter.value in g.members || g.invitations[id].inviter.value in superusers)
      && !(exists j :: j in g.invitations && g.invitations[j].user == user && g.invitations[j].status == Accepted)
    ensures AcceptInvitation(g, id, user, superusers, now).Err? ==>
      AcceptInvitation(g, id, user, superusers, now).error ==
        if !(id in g.invitations && g.invitations[id].user == user && g.invitations[id].status == Pending) then InvitationNotFound
        else if g.invitations[id].expiresAt.Some? && g.invitations[id].expiresAt.value < now then InvitationExpired
        else if user in g.banned then UserBanned
        else if g.invitations[id].inviter.Some? && g.invitations[id].inviter.value !in g.members
                && g.invitations[id].inviter.value !in superusers then InviterLeft
        else if exists j :: j in g.invitations && g.invitations[j].user == user && g.invitations[j].status == Accepted
        then ConstraintViolation
        else AlreadyMember
    ensures AcceptInvitation(g, id, user, superusers, now).Ok? ==>
      AcceptInvitation(g, id, user, superusers, now).value ==
        g.(members := g.members[user := Member(false, false, false)],
           invitations := g.invitations[id := Invitation(user, g.invitations[id].inviter, Accepted, g.invitations[id].expiresAt)])
  {
    if id in g.invitations && g.invitations[id].status == Pending {
      assert StatusTaken(g, user, Accepted, id) <==>
        exists j :: j in g.invitations && g.invitations[j].user == user && g.invitations[j].status == Accepted;
    }
  }

  /** The unique key has a lasting effect: once a user has accepted an invitation
      to the group, no later acceptance by that user ever succeeds, even after
      the user has left or been removed and has been invited again, unless the
      user's row itself is deleted. */
  lemma AcceptedOnceNeverAgain(g: Group, id: nat, user: UserId, superusers: set<UserId>, now: int,
                               es: seq<Event>, id': nat, superusers': set<UserId>, now': int)
    requires IdsIssued(g) && NotForgotten(es, user)
    requires AcceptInvitation(g, id, user, superusers, now).Ok?
    ensures AcceptInvitation(Run(AcceptInvitation(g, id, user, superusers, now).value, es), id', user, superusers', now').Err?
  {
    var g1 := AcceptInvitation(g, id, user, superusers, now).value;
    AcceptedRowStays(g1, es, id, user, Accepted);
    var g2 := Run(g1, es);
    if id' != id {
      assert StatusTaken(g2, user, Accepted, id');
    }
  }

  /** The check for an open invitation overlooks those past their deadline, but
      the unique key does not: an invitation is created exactly when the inviter is a
      member or a superuser and the user is neither banned nor a member and has no pending one, expired or not. */
  lemma InviteSucceedsIff(g: Group, user: UserId, inviter: UserId, superusers: set<UserId>, now: int)
    requires IdsIssued(g)
    ensures InviteUser(g, user, inviter, superusers, now).Ok? <==>
      (inviter in g.members || inviter in superusers)
      && user !in g.banned && user !in g.members
      && !(exists i :: i in g.invitations && g.invitations[i].user == user && g.invitations[i].status == Pending)
    ensures InviteUser(g, user, inviter, superusers, now).Err? ==>
      InviteUser(g, user, inviter, superusers, now).error ==
        if inviter !in g.members && inviter !in superusers then Forbidden
        else if user in g.banned then UserBanned
        else if user in g.members then AlreadyMember
        else if exists i :: i in g.invitations && g.invitations[i].user == user && g.invitations[i].status == Pending
                       && (g.invitations[i].expiresAt.Some? ==> now < g.invitations[i].expiresAt.value) then InvitationAlreadyPending
        else ConstraintViolation
    ensures InviteUser(g, user, inviter, superusers, now).Ok? ==>
      InviteUser(g, user, inviter, superusers, now).value ==
        g.(next := g.next + 1, invitations := g.invitations[g.next := Invitation(user, Some(inviter), Pending, Some(now + 604800))])
  {
    if i :| i in g.invitations && g.invitations[i].user == user && g.invitations[i].status == Pending {
      assert i != g.next;
      assert StatusTaken(g, user, Pending, g.next);
    }
  }

  /** Answers in the history come at `from` or later. */
  predicate AnswersFrom(es: seq<Event>, from: int) {
    forall i :: 0 <= i < |es| ==> (es[i].Accept? ==> es[i].now >= from) && (es[i].Decline? ==> es[i].now >= from)
  }

  /** A pending invitation of the user past its deadline. */
  ghost predicate Lapsed(g: Group, id: nat, user: UserId, from: int) {
    && id in g.invitations && g.invitations[id].user == user && g.invitations[id].status == Pending
    && Past(g.invitations[id].expiresAt, from)
  }

  lemma LapsedStep(g: Group, e: Event, id: nat, user: UserId, from: int)
    requires IdsIssued(g) && Lapsed(g, id, user, from) && e != Forget(user)
    requires (e.Accept? ==> e.now >= from) && (e.Decline? ==> e.now >= from)
    ensures IdsIssued(Step(g, e)) && Lapsed(Step(g, e), id, user, from)
  {
    IdsStayIssued(g, e);
    if e.Forget? {
      ForgettingKeepsLapsed(g, e.user, id, user, from);
    } else if (e.Accept? && e.id == id) || (e.Decline? && e.id == id) {
      LapsedIsNotAnswered(g, e, id, user, from);
    } else {
      InvitationRowStays(g, e, id);
    }
  }

  lemma ForgettingKeepsLapsed(g: Group, other: UserId, id: nat, user: UserId, from: int)
    requires Lapsed(g, id, user, from) && other != user
    ensures Lapsed(ForgetUser(g, other), id, user, from)
  {
  }

  lemma LapsedIsNotAnswered(g: Group, e: Event, id: nat, user: UserId, from: int)
    requires Lapsed(g, id, user, from) && ((e.Accept? && e.id == id) || (e.Decline? && e.id == id)) && e.now >= from
    ensures Step(g, e) == g
  {
  }

  /** An invitation left unanswered past its deadline can no longer be answered,
      and as long as the user exists no invitation of that user to the group ever
      succeeds again. */
  lemma {:induction false} ExpiredInvitationBlocksForever(g: Group, id: nat, user: UserId, es: seq<Event>, from: int,
                                                      inviter: UserId, superusers: set<UserId>, now: int)
    requires IdsIssued(g) && Lapsed(g, id, user, from)
    requires AnswersFrom(es, from) && NotForgotten(es, user)
    ensures InviteUser(Run(g, es), user, inviter, superusers, now).Err?
    decreases |es|
  {
    if es == [] {
      InviteSucceedsIff(g, user, inviter, superusers, now);
    } else {
      LapsedStep(g, es[0], id, user, from);
      NotForgottenAfter(es, user);
      assert AnswersFrom(es[1..], from) by {
        assert forall i :: 0 <= i < |es[1..]| ==> es[1..][i] == es[i + 1];
      }
      ExpiredInvitationBlocksForever(Step(g, es[0]), id, user, es[1..], from, inviter, superusers, now);
    }
  }

  // ---- Trust ----

  /** Every trusted member holds at least the threshold of vouches, none of them
      from the member itself. */
  ghost predicate TrustEarned(g: Group) {
    forall u :: u in g.members && g.members[u].trusted ==> |Vouchers(g, u)| >= g.threshold && u !in Vouchers(g, u)
  }

  /** Deleting a user leaves every other trusted member with enough vouches. */
  ghost predicate SparesTrust(g: Group, e: Event) {
    e.Forget? ==> forall u :: u in g.members && u != e.user && g.members[u].trusted ==> |Vouchers(g, u) - {e.user}| >= g.threshold
  }

  lemma VouchersAfterForgetting(g: Group, user: UserId, u: UserId)
    requires u != user
    ensures Vouchers(ForgetUser(g, user), u) == Vouchers(g, u) - {user}
  {
    var before, after := Vouchers(g, u), Vouchers(ForgetUser(g, user), u);
    forall x | x in before && x != user
      ensures x in after
    {
      assert (x, u) in g.vouches;
      assert (x, u) in ForgetUser(g, user).vouches;
    }
  }

  lemma ForgettingIff(g: Group, user: UserId)
    requires TrustEarned(g)
    ensures TrustEarned(ForgetUser(g, user)) <==> SparesTrust(g, Forget(user))
  {
    var g' := ForgetUser(g, user);
    forall u | u != user
      ensures Vouchers(g', u) == Vouchers(g, u) - {user}
    {
      VouchersAfterForgetting(g, user, u);
    }
    assert forall u :: u in g'.members <==> u in g.members && u != user;
    assert forall u :: u in g'.members ==> g'.members[u] == g.members[u];
  }

  lemma VouchKeepsTrust(g: Group, voucher: UserId, vouched: UserId)
    requires TrustEarned(g) && NobodyVouchesForSelf(g) && CreateTrustVouch(g, voucher, vouched).Ok?
    ensures TrustEarned(CreateTrustVouch(g, voucher, vouched).value)
  {
    var g' := CreateTrustVouch(g, voucher, vouched).value;
    forall u | u in g'.members && g'.members[u].trusted
      ensures |Vouchers(g', u)| >= g'.threshold && u !in Vouchers(g', u)
    {
      if u != vouched {
        assert Vouchers(g', u) == Vouchers(g, u);
      } else {
        SubsetSize(Vouchers(g, u), Vouchers(g', u));
        assert Vouchers(g', u) == Vouchers(g.(vouches := g.vouches + {(voucher, vouched)}), u);
      }
    }
  }

  lemma OthersLeaveTrust(g: Group, e: Event)
    requires !e.Forget? && !(e.Vouch? && Outcome(g, e).Ok?)
    ensures Step(g, e).vouches == g.vouches && Step(g, e).threshold == g.threshold
    ensures forall u :: u in Step(g, e).members && Step(g, e).members[u].trusted ==> u in g.members && g.members[u].trusted
  {
  }

  lemma SameVouchesKeep(g: Group, g': Group)
    requires TrustEarned(g) && g'.vouches == g.vouches && g'.threshold == g.threshold
    requires forall u :: u in g'.members && g'.members[u].trusted ==> u in g.members && g.members[u].trusted
    ensures TrustEarned(g')
  {
    assert forall u :: Vouchers(g', u) == Vouchers(g, u);
  }

  /** The count of vouches behind a trusted member can only be broken by deleting a
      user, and is exactly when that leaves another trusted member short: the
      deletion takes the user's vouches along, but not the trust they earned. */
  lemma TrustStepIff(g: Group, e: Event)
    requires TrustEarned(g) && NobodyVouchesForSelf(g)
    ensures TrustEarned(Step(g, e)) <==> SparesTrust(g, e)
  {
    if e.Forget? {
      ForgettingIff(g, e.user);
    } else if e.Vouch? && Outcome(g, e).Ok? {
      VouchKeepsTrust(g, e.voucher, e.vouched);
    } else {
      OthersLeaveTrust(g, e);
      SameVouchesKeep(g, Step(g, e));
    }
  }

  ghost predicate AlwaysEarned(g: Group, es: seq<Event>)
    decreases |es|
  {
    TrustEarned(g) && (es != [] ==> AlwaysEarned(Step(g, es[0]), es[1..]))
  }

  ghost predicate DeletionsSpareTrust(g: Group, es: seq<Event>)
    decreases |es|
  {
    es != [] ==> SparesTrust(g, es[0]) && DeletionsSpareTrust(Step(g, es[0]), es[1..])
  }

  lemma {:induction false} TrustThroughoutIff(g: Group, es: seq<Event>)
    requires Sound(g) && TrustEarned(g)
    ensures AlwaysEarned(g, es) <==> DeletionsSpareTrust(g, es)
    decreases |es|
  {
    if es != [] {
      TrustStepIff(g, es[0]);
      SoundStep(g, es[0]);
      if TrustEarned(Step(g, es[0])) {
        TrustThroughoutIff(Step(g, es[0]), es[1..]);
      } else {
        assert !AlwaysEarned(Step(g, es[0]), es[1..]);
      }
    }
  }

  /** Every vouch a history adds was cast, at some moment of it, by a member who
      was then trusted or an admin, for someone who was then a member. */
  lemma {:induction false} VouchesCastByTrusted(g: Group, es: seq<Event>, v: (UserId, UserId)) returns (i: nat)
    requires v in Run(g, es).vouches && v !in g.vouches
    ensures i < |es| && es[i] == Vouch(v.0, v.1)
    ensures MayVouch(Run(g, es[..i]), v.0) && v.1 in Run(g, es[..i]).members
    decreases |es|
  {
    var g1 := Step(g, es[0]);
    if v in g1.vouches {
      i := 0;
      assert es[..0] == [];
    } else {
      var k := VouchesCastByTrusted(g1, es[1..], v);
      i := k + 1;
      assert es[..i][1..] == es[1..][..k];
    }
  }

  /** Everyone who is an admin in some state of the history. */
  ghost function EverAdmins(g: Group, es: seq<Event>): set<UserId>
    decreases |es|
  {
    if es == [] then Admins(g) else Admins(g) + EverAdmins(Step(g, es[0]), es[1..])
  }

  lemma VouchersWithin(g: Group, u: UserId, admins: set<UserId>)
    requires forall v :: v in g.vouches ==> v.0 in admins
    ensures |Vouchers(g, u)| <= |admins|
  {
    SubsetSize(Vouchers(g, u), admins);
  }

  ghost predicate UntrustedAmong(g: Group, admins: set<UserId>) {
    && (forall u :: u in g.members ==> !g.members[u].trusted)
    && (forall v :: v in g.vouches ==> v.0 in admins)
    && |admins| < g.threshold
  }

  lemma UntrustedStep(g: Group, e: Event, admins: set<UserId>)
    requires UntrustedAmong(g, admins) && Admins(g) <= admins
    ensures UntrustedAmong(Step(g, e), admins)
  {
    if e.Vouch? && Outcome(g, e).Ok? {
      assert e.voucher in Admins(g);
      var g1 := g.(vouches := g.vouches + {(e.voucher, e.vouched)});
      VouchersWithin(g1, e.vouched, admins);
    }
  }

  lemma {:induction false} UntrustedWhileAdminsTooFew(g: Group, es: seq<Event>, admins: set<UserId>)
    requires UntrustedAmong(g, admins) && EverAdmins(g, es) <= admins
    ensures UntrustedAmong(Run(g, es), admins)
    decreases |es|
  {
    if es != [] {
      UntrustedStep(g, es[0], admins);
      UntrustedWhileAdminsTooFew(Step(g, es[0]), es[1..], admins);
    }
  }

  /** Trust is grounded in admins: if a history that starts with no vouches makes
      anyone trusted, at least as many users as the threshold were admins in it. */
  lemma TrustNeedsAdmins(g: Group, es: seq<Event>)
    requires g.vouches == {} && Trusted(g) == {}
    ensures Trusted(Run(g, es)) != {} ==> |EverAdmins(g, es)| >= g.threshold
  {
    assert forall u :: u in g.members && g.members[u].trusted ==> u in Trusted(g);
    if |EverAdmins(g, es)| < g.threshold {
      UntrustedWhileAdminsTooFew(g, es, EverAdmins(g, es));
    }
  }

  /** Nobody but `creator` is a founding member or an admin. */
  ghost predicate OnlyCreatorLeads(g: Group, creator: UserId) {
    forall u :: u in g.members && (g.members[u].founding || g.members[u].isAdmin) ==> u == creator
  }

  lemma OnlyCreatorLeadsStep(g: Group, e: Event, creator: UserId)
    requires OnlyCreatorLeads(g, creator)
    ensures OnlyCreatorLeads(Step(g, e), creator)
  {
  }

  lemma {:induction false} OnlyTheCreatorIsEverAdmin(g: Group, es: seq<Event>, creator: UserId)
    requires OnlyCreatorLeads(g, creator)
    ensures EverAdmins(g, es) <= {creator}
    decreases |es|
  {
    if es != [] {
      OnlyCreatorLeadsStep(g, es[0], creator);
      OnlyTheCreatorIsEverAdmin(Step(g, es[0]), es[1..], creator);
    }
  }

  lemma RunOfThree(g: Group, a: Event, b: Event, c: Event)
    ensures Run(g, [a, b, c]) == Step(Step(Step(g, a), b), c)
  {
    var g1 := Step(g, a);
    var g2 := Step(g1, b);
    assert [a, b, c][1..] == [b, c] && [b, c][1..] == [c] && [c][1..] == [];
    assert Run(Step(g2, c), []) == Step(g2, c);
    assert Run(g2, [c]) == Step(g2, c);
    assert Run(g1, [b, c]) == Step(g2, c);
  }

  /** Where one vouch is enough, the creator can make a newcomer trusted. */
  lemma OneTrusted(creator: UserId, threshold: int) returns (es: seq<Event>)
    requires threshold <= 1
    ensures var g := Run(Founded(creator, threshold), es);
      creator + 1 in Trusted(g) && g.vouches == {(creator, creator + 1)} && g.threshold == threshold
  {
    var user := creator + 1;
    es := [AddLink(None, None), Join(0, user, 0), Vouch(creator, user)];
    RunOfThree(Founded(creator, threshold), es[0], es[1], es[2]);
    var g3 := Run(Founded(creator, threshold), es);
    assert g3.vouches == {(creator, user)};
    assert Vouchers(g3, user) == {creator} by {
      assert (creator, user).0 in Vouchers(g3, user);
    }
    assert user in g3.members && g3.members[user].trusted;
  }

  /** At a threshold of one it happens: the only voucher is deleted. */
  lemma TrustCanOutliveItsVouches(creator: UserId) returns (es: seq<Event>)
    ensures !TrustEarned(Run(Founded(creator, 1), es))
  {
    var first := OneTrusted(creator, 1);
    var g := Run(Founded(creator, 1), first);
    es := first + [Forget(creator)];
    RunAppend(Founded(creator, 1), first, [Forget(creator)]);
    assert [Forget(creator)][1..] == [];
    var g' := Step(g, Forget(creator));
    assert Run(g', []) == g' && Run(g, [Forget(creator)]) == g';
    assert creator + 1 in g'.members && g'.members[creator + 1].trusted;
    assert Vouchers(g', creator + 1) == {};
  }

  lemma {:induction false} ThresholdStays(g: Group, es: seq<Event>)
    ensures Run(g, es).threshold == g.threshold
    decreases |es|
  {
    if es != [] {
      ThresholdStays(Step(g, es[0]), es[1..]);
    }
  }

  lemma NobodyIsTrusted(creator: UserId, threshold: int, es: seq<Event>)
    requires threshold > 1
    ensures Trusted(Run(Founded(creator, threshold), es)) == {}
  {
    var g := Founded(creator, threshold);
    assert Trusted(g) == {};
    OnlyTheCreatorIsEverAdmin(g, es, creator);
    SubsetSize(EverAdmins(g, es), {creator});
    TrustNeedsAdmins(g, es);
  }

  /** Every history leaves each trusted member with enough vouches. */
  ghost predicate AlwaysKeepsTrust(g: Group) {
    forall es :: TrustEarned(Run(g, es))
  }

  /** A founded group keeps the threshold of vouches behind every trusted member in
      all its histories exactly when the threshold is not one. No statement writes
      the threshold, and at its default of two nobody is ever trusted. */
  lemma TrustIsKeptIff(creator: UserId, threshold: int)
    ensures AlwaysKeepsTrust(Founded(creator, threshold)) <==> threshold != 1
  {
    var g := Founded(creator, threshold);
    if threshold == 1 {
      var es := TrustCanOutliveItsVouches(creator);
    } else {
      forall es: seq<Event>
        ensures TrustEarned(Run(g, es))
      {
        if threshold > 1 {
          NobodyIsTrusted(creator, threshold, es);
          assert forall u :: u in Run(g, es).members && Run(g, es).members[u].trusted ==> u in Trusted(Run(g, es));
        } else {
          ThresholdStays(g, es);
          ReachableIsSound(creator, threshold, es);
          NoVouchForSelf(Run(g, es));
        }
      }
    }
  }

  lemma NoVouchForSelf(g: Group)
    requires NobodyVouchesForSelf(g)
    ensures forall u :: u !in Vouchers(g, u)
  {
  }

  ghost predicate CanEarnTrust(g: Group) {
    exists es :: Trusted(Run(g, es)) != {}
  }

  /** No transaction marks a second founding member, so a founded group never has
      an admin but its creator; somebody can therefore earn trust in it exactly
      when a single vouch is enough. The column defaults to 2
      (migrations/037_access_tiers.up.sql), for which nobody ever can. */
  lemma TrustReachableIffOneVouchSuffices(creator: UserId, threshold: int)
    ensures CanEarnTrust(Founded(creator, threshold)) <==> threshold <= 1
  {
    var g := Founded(creator, threshold);
    assert Trusted(g) == {};
    if threshold <= 1 {
      var es := OneTrusted(creator, threshold);
    } else {
      forall es: seq<Event>
        ensures Trusted(Run(g, es)) == {}
      {
        NobodyIsTrusted(creator, threshold, es);
      }
    }
  }

  // ---- Admins ----

  /** `creator` is an admin, and nobody else leads. */
  ghost predicate Led(g: Group, creator: UserId) {
    OnlyCreatorLeads(g, creator) && creator in g.members && g.members[creator].isAdmin
  }

  /** Nobody is an admin or could become one. */
  ghost predicate Leaderless(g: Group) {
    forall u :: u in g.members ==> !g.members[u].founding && !g.members[u].isAdmin
  }

  /** The two ways a member goes that do not ask for another admin. */
  predicate TakesAway(e: Event, user: UserId) {
    e == Ban(user) || e == Forget(user)
  }

  lemma LedAdmins(g: Group, creator: UserId)
    requires Led(g, creator)
    ensures Admins(g) == {creator} && Outcome(g, Leave(creator)) == Err(LastAdmin)
  {
  }

  lemma LedStep(g: Group, e: Event, creator: UserId)
    requires Led(g, creator)
    ensures if TakesAway(e, creator) then Leaderless(Step(g, e)) else Led(Step(g, e), creator)
  {
    LedAdmins(g, creator);
    OnlyCreatorLeadsStep(g, e, creator);
  }

  lemma LeaderlessStep(g: Group, e: Event)
    requires Leaderless(g)
    ensures Leaderless(Step(g, e))
  {
  }

  lemma {:induction false} LeaderlessThroughout(g: Group, es: seq<Event>)
    requires Leaderless(g)
    ensures Leaderless(Run(g, es))
    decreases |es|
  {
    if es != [] {
      LeaderlessStep(g, es[0]);
      LeaderlessThroughout(Step(g, es[0]), es[1..]);
    }
  }

  predicate TakenAway(es: seq<Event>, user: UserId) {
    es != [] && (TakesAway(es[0], user) || TakenAway(es[1..], user))
  }

  lemma {:induction false} LedThroughout(g: Group, es: seq<Event>, creator: UserId)
    requires Led(g, creator)
    ensures if TakenAway(es, creator) then Leaderless(Run(g, es)) else Led(Run(g, es), creator)
    decreases |es|
  {
    if es != [] {
      LedStep(g, es[0], creator);
      if TakesAway(es[0], creator) {
        LeaderlessThroughout(Step(g, es[0]), es[1..]);
      } else {
        LedThroughout(Step(g, es[0]), es[1..], creator);
      }
    }
  }

  /** The admins of a group after any history: its creator alone, who can never
      leave, until the creator is once banned or deleted; from then on nobody, not
      even the creator let back in. */
  lemma AdminsIff(creator: UserId, threshold: int, es: seq<Event>)
    ensures var g := Run(Founded(creator, threshold), es);
      if TakenAway(es, creator) then Admins(g) == {} && Leaderless(g)
      else Admins(g) == {creator} && Outcome(g, Leave(creator)) == Err(LastAdmin)
  {
    LedThroughout(Founded(creator, threshold), es, creator);
    var g := Run(Founded(creator, threshold), es);
    if !TakenAway(es, creator) {
      LedAdmins(g, creator);
    }
  }
}
