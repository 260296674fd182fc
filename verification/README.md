# A verified model of the community-response backend

This project models the parts of the backend whose logic is a state machine over
database tables, and proves what those state machines keep. A transaction is one
step that commits its outcome or leaves the tables as they were. What a
transaction means is a function on the tables; the repositories and handlers are
classes whose methods carry out the same statements and loops in place and are
proved to leave exactly the tables that function gives. The theorems are about
those functions: over one step, over whole histories, and between operations.

| file | contents |
|---|---|
| `Prelude.dfy`, `Names.dfy` | identifiers, results, row order; strings in order and the exchange sort |
| `Groups.dfy`, `GroupHistory.dfy` | one group: members, bans, links, invitations, trust vouches |
| `Network.dfy` | the tables shared by connections, blocks, chats and wrapped keys, and every transaction on them |
| `Eviction.dfy` | the exact effect of leaving and of blocking on all tables |
| `Conditions.dfy`, `GroupConditions.dfy` | when each step is taken and what it writes, column by column; deadlines over histories |
| `Invariants.dfy`, `Consensus.dfy`, `Consent.dfy`, `Users.dfy`, `Leadership.dfy` | what every reachable state keeps; who may sit together; consent; users behind the rows; groups without an admin |
| `Chats.dfy`, `SignalLimit.dfy` | votes on chats and what becomes of their keys; the limit on signal groups |
| `Custody.dfy`, `PlainSteps.dfy`, `Entitlement.dfy`, `GroupCustody.dfy` | who can hold a key, over whole histories; rotation; the re-key batch; who should |
| `Database.dfy`, `SecretTransactions.dfy`, `ConnectionTransactions.dfy`, `GroupTransactions.dfy`, `Handlers.dfy` | the tables as an object and the repositories and handlers as classes on it |
| `Regions.dfy`, `RegionMembership.dfy`, `RegionCreation.dfy`, `RegionLabel.dfy` | the region hierarchy: closures, membership, vouch counts, creation, labels |
| `Lockout.dfy` | login and MFA counters, the lock, rates |
| `StatusCache.dfy` | the status cache under interleaving, revocation |
| `Findings.dfy`, `ReportLayout.dfy`, `ReportText.dfy`, `TechDebt.dfy`, `BraceScan.dfy`, `FunctionScan.dfy`, `TextReports.dfy` | the tech-debt report: summary, details, baseline; stripping, the brace scan, its findings, and what it reports of plain text |

Choices that matter for reading the statements:

- Identifiers are drawn from a counter instead of being random, so a new one
  differs from all before it.
- Rows come back in ascending order of identifier, where the queries name no order.
- Child rows sit inside the row they belong to, which carries the primary and
  unique keys and the cascades of the migrations.
- Times, the superusers, the map service's answers, the users with a public key,
  which admin of a group a query returns and the outcome of password, code and
  backup-code checks are parameters.
- The checks on the tables that a handler makes before it calls a repository are part of
  the same step.
- Users are rows that can be added and deleted; an insert that names a user there is not
  fails, and a deletion does what the foreign keys say.

## What turned out not to hold

- Formation does not look at blocks again, so a group can be put together with one
  it has blocked since the proposal (`Consensus.BlockedGroupsCanMeet`); when it does
  not happen is exact (`Consensus.SeparatedThroughoutIff`).
- The limit on signal groups is checked when a chat is proposed, not when it is
  approved, and bounds nothing over a history (`SignalLimit.SignalGroupsAreUnbounded`);
  when it holds is exact (`SignalLimit.LimitThroughoutIff`).
- Unanimous approval does not always create a restricted chat: its keys may name users
  that do not exist, and then the approving vote is refused
  (`Chats.ApprovalCanBeRefused`, `Chats.VoteTakenIff`); and after the proposing user is
  deleted the chat is created without its secret (`Chats.BundleArrivesIff`).
- A user who leaves a group keeps the keys of the group's connections, and a group that
  has left a connection can still receive some (`Entitlement.FormerMemberKeepsKeys`,
  `Entitlement.DepartedGroupReceivesKeys`); when every recipient is entitled is exact
  (`Entitlement.EntitledThroughoutIff`).
- A group's secret can be created for users who are no members
  (`GroupCustody.StrangerReceivesKey`); nothing else breaks that
  (`GroupCustody.HoldersThroughoutIff`).
- Deleting a user does not take back the trust the user's vouches earned
  (`GroupHistory.TrustStepIff`). With the threshold at its default nobody is trusted and
  nothing is lost; a history in which a member stays trusted with too few vouches needs
  the column set to one by hand (`GroupHistory.TrustIsKeptIff`,
  `GroupHistory.TrustCanOutliveItsVouches`).
- A group whose creator is banned or deleted never has an admin again
  (`GroupHistory.AdminsIff`, `Leadership.LeaderlessForever`), and what waits for its
  answer waits forever (`Leadership.WaitsForever`).
- The unique key on group, user and status lets a user accept only one invitation
  to a group ever, and lets an expired invitation block all later ones
  (`GroupHistory.AcceptedOnceNeverAgain`, `GroupHistory.ExpiredInvitationBlocksForever`).
- Only the creator of a group is ever a founding member or an admin, so with the
  default threshold of two nobody can be trusted
  (`GroupHistory.TrustReachableIffOneVouchSuffices`).
- Counties are looked up by name and type alone, so a city can be placed in another
  state's county (`RegionCreation.CityLandsInStateIff`,
  `RegionCreation.CityCanLandInAnotherState`).
- A lock can end up to a second before its fifteen minutes are over where its end is stored
  in whole seconds (`Lockout.FailureRate`, `Lockout.FailureRateInSeconds`).
- Invalidating a cache entry is undone by a fetch that began before the update
  (`StatusCache.InvalidationIsImmediateIff`).
- The tech-debt scan never measures a function whose opening brace is on a later line
  than its declaration (`BraceScan.MeasuredIffOpenedOnFirstLine`), although the comment
  there allows for it (cmd/tech-debt-classify/main.go:225).
- The comments on both revocation functions (internal/database/encrypted_secrets.go:492-493
  and 631-632) speak of `rekey_needed`; the code sets `group_rotation_pending`, and so
  does the model.
- The late-response update to 'expired' is rolled back by the error that follows it
  (internal/database/connections.go:147-150): no committed row is ever expired.

## Model

| member | source | states |
|---|---|---|
| `Consensus.SeparatedThroughoutIff` | internal/database/connections.go:125-370 | A history that starts separated has no connection joining two groups that block each other in any of its states exactly when, at the moment each formation closes, the groups on its roster are pairwise unblocked |
| `Consensus.SeparationStepIff` | internal/database/connections.go:247-303 | One step keeps separation exactly when it is not the closing of a formation whose groups block each other; expansion, leaving, blocking, unblocking, declining and everything else keep it unconditionally |
| `Consensus.BlockedGroupsCanMeet` | internal/database/connections.go:247-303 | A concrete history (found two groups, propose, block, accept) ends with a connection joining two groups one of which blocks the other: formation does not look at blocks again |
| `Consensus.FinalFormation` | internal/database/connections.go:247-303 | The response completing a formation creates one new connection of exactly the roster's groups and changes no other connection |
| `Consensus.FinalExpansion` | internal/database/connections.go:306-370 | The response completing an expansion adds at most one group, and exactly the roster's outsider unless it and some member block each other; no other connection changes |
| `Consensus.InvitedGroupIsTheOnlyOutsider` | internal/database/connections.go:481-605 | After any history following an invitation: while its proposal is pending, the connection exists and everyone on the roster but the invited group is still a member |
| `Consensus.StatusIsFinal` | internal/database/connections.go:140-150 | A proposal row that is accepted or declined never changes again in any step; it can only vanish with its connection |
| `Consensus.OthersKeepProposal` | internal/database/connections.go:125-244 | No step other than a response to a proposal changes its row, it may only delete it |
| `Consensus.ResponseUsesOneEntry` | internal/database/connections.go:152-190 | A response is taken exactly when the proposal exists, is pending and not past its deadline and the group is on its roster with an open entry, with the error of the first check that fails otherwise; it then uses up exactly one open entry |
| `Consensus.ResponsesAreBounded` | internal/database/connections.go:125-244 | In any history a proposal takes no more successful responses than it had pending entries, whatever happens in between |
| `Conditions.ProposeIff` | internal/database/connections.go:39-122 | A formation is opened exactly when there are targets, all groups exist, no target and the proposer block each other either way and no target but the proposer is listed twice; it is pending for seven days with the proposer's entry accepted and the others open, and nothing else changes; each refusal has its error |
| `Conditions.FirstOffenderDecides` | internal/handlers/connections.go:78-110 | Of several targets that do not pass, the first in the list decides the error |
| `Conditions.InviteIff` | internal/database/connections.go:481-605 | An invitation is opened exactly when the proposer is a member, the target is an existing non-member and no member and the target block each other either way; its roster is the members and the target, for seven days, and nothing else changes; each refusal has its error |
| `Conditions.ResponseWrites` | internal/database/connections.go:152-244 | A response writes the group's own entry; a refusal declines the proposal, and an acceptance closes it exactly when no other entry is open |
| `Conditions.NoLateResponse` | internal/database/connections.go:146-150 | After any history following the opening of a proposal, no response later than seven days after it is taken |
| `Conditions.BlockIff` | internal/database/groups.go:1706-1817 | A block is placed exactly between two different existing groups where that block is not there yet, and lifting one removes exactly it; each refusal has its error |
| `Conditions.SweepOne` | internal/handlers/connections.go:453-462 | One look of the sweep makes a member leave exactly when there is another member and every other one blocks it; whom it blocks itself does not matter |
| `Consensus.SweepFindsNobody` | internal/handlers/connections.go:453-462 | In a separated state the sweep that follows a departure removes nobody, for any connection and any list of members |
| `Consensus.SweepIsDepartures` | internal/handlers/connections.go:453-462 | In any state the sweep equals a history of departures of listed groups from that one connection, so it keeps whatever departures keep |
| `Invariants.ReachableIsSound` | internal/database/connections.go:39-1153 | Every state any history reaches from the empty database has: foreign keys, fresh identifiers, at least two groups per connection, accepted proposals and chats accepted by their whole roster, pending ones refused by nobody, at most one outsider on a pending expansion, and as many signal groups per connection as approved chats |
| `Invariants.ChatOpensPending` | internal/database/connections.go:969-988 | In a reachable state a new chat proposal is always left pending with every other member's vote open: the single-member approval branch is never taken |
| `Invariants.RespondAnswers` | internal/database/connections.go:125-244 | A successful response changes one proposal row, only grows connections, creates at most one, and leaves a row that fits its votes |
| `Consent.MembersConsented` | internal/database/connections.go:125-370 | In every state of every history each member of each connection has an accepted proposal of that connection on record on which it accepted |
| `Consent.FormationIsUnanimous` | internal/database/connections.go:39-190 | After any history following a formation proposal: if it is accepted, its proposer and every group it was addressed to have accepted it |
| `Consent.ExpansionIsUnanimous` | internal/database/connections.go:481-605 | After any history following an invitation: if it is accepted, the invited group and everyone who was a member then have accepted it |
| `Chats.ChatIsUnanimous` | internal/database/connections.go:917-1133 | After any history following a chat proposal: if it is approved, every group that was a member of the connection then has approved it, also one that has left since |
| `Chats.ChatStatusIsFinal` | internal/database/connections.go:1014-1026 | An approved or declined chat proposal keeps its status and all its votes in every step; only the proposing user can be forgotten |
| `Chats.VoteTakenIff` | internal/database/connections.go:1000-1133 | A vote is taken exactly when its checks pass and, if it approves a complete bundle, every user the bundle names exists; it then uses up exactly one open vote, and otherwise changes nothing |
| `Conditions.ProposeChatIff` | internal/database/connections.go:823-997 | In a reachable state a chat is proposed exactly when the proposer is a member, fewer than five signal groups of the connection are active and no user is given two keys; each refusal has its error |
| `Conditions.ProposeChatWrites` | internal/database/connections.go:905-997 | A proposed chat is pending for seven days, with a vote for every member, the proposer's cast, and nothing else changes |
| `Conditions.VoteIff` | internal/database/connections.go:1014-1133 | A vote is taken exactly when the chat is pending and not past its deadline and the group's vote is open, and, for the last approval of a complete bundle, every user named exists; each refusal has its error |
| `Conditions.VoteWrites` | internal/database/connections.go:1052-1100 | A vote writes the group's own vote; a refusal declines the chat, and an approval closes it exactly when no other vote is open |
| `Conditions.VoteCreates` | internal/database/connections.go:1075-1133 | The last approval opens one active signal group of the connection and, for a restricted chat with payload, iv, keys and proposing user, one secret with exactly these; any other vote creates nothing |
| `Conditions.NoLateVote` | internal/database/connections.go:1026-1030 | After any history following the proposal of a chat, no vote later than seven days after it is taken |
| `Chats.OthersKeepChat` | internal/database/connections.go:823-1153 | No step but a vote on a chat proposal changes its row, except that deleting the proposing user empties that column; it may be deleted |
| `Chats.VotesAreBounded` | internal/database/connections.go:1000-1153 | In any history a chat proposal takes no more successful votes than it had open ones |
| `SignalLimit.LimitStepIff` | internal/database/connections.go:849-860 | One step of any kind keeps every connection within five active signal groups exactly when it is not an approving vote on a connection that holds five |
| `SignalLimit.LimitThroughoutIff` | internal/database/connections.go:849-860 | A whole history stays within the limit in all its states exactly when no vote in it approves a chat of a connection that is full at that moment |
| `SignalLimit.SignalGroupsAreUnbounded` | internal/database/connections.go:849-860 | For every number some history from the empty database gives a connection that many active signal groups: open proposals are not counted |
| `Chats.BundleArrivesIff` | internal/database/connections.go:1075-1133 | Whatever happens between proposal and approval: if the proposing user was deleted, the approving vote creates a signal group and no secret; otherwise it is refused exactly when the bundle names a user there is not, and else creates the secret with exactly the proposed payload and wrapped keys, unflagged, on a signal group of the proposed connection |
| `Chats.TextThroughout` | migrations/051_connection_chat_bundle.up.sql:1-9 | Through any history a chat proposal keeps its connection and bundle, and its proposing user exactly as long as that user is not deleted |
| `Chats.NamingAStrangerBlocksApproval` | migrations/051_connection_chat_bundle.up.sql:11-20 | A proposal whose bundle names a user that is never added is refused at its approving vote on every attempt, as long as its proposing user exists |
| `Chats.ApprovalCanBeRefused` | internal/handlers/connections.go:505-518 | A concrete history from the empty database: the proposal names a user that does not exist, its vote passes every check, and is refused |
| `Eviction.RemovalIsEviction` | internal/database/connections.go:608-667 | Revoking, deleting the member row and then dissolving or clearing proposals, step by step, equals the closed form of an eviction on every table |
| `Eviction.DepartureOnRows` | internal/database/connections.go:608-667 | A departure takes exactly the group out of the connection, or dissolves it where there is no third member; exactly the connection's pending proposals go, and on dissolution all its proposals, chats and signal groups; nothing else is touched |
| `Eviction.DepartureOnKeys` | internal/database/encrypted_secrets.go:494-629 | A departure from a connection of three or more deletes the leaving group's users' rows on each of the connection's secrets, keeps every other row's key and re-key flag, and leaves a row waiting for a rotation exactly when it did before or its user is in some remaining group; from a connection of two the secrets go with it |
| `Eviction.BlockIsEviction` | internal/database/groups.go:1706-1798 | Evicting from the shared connections one after the other equals evicting from all of them at once, for any number of them |
| `Eviction.BlockOnConnections` | internal/database/groups.go:1706-1798 | A block: each shared connection of three or more loses exactly the blocked group, each of two is dissolved, every other one is untouched |
| `Eviction.BlockOnProposals` | internal/database/groups.go:1777-1795 | A proposal of a shared connection goes exactly when it is pending or the connection has no third member; every other row is unchanged |
| `Eviction.BlockOnChats` | internal/database/groups.go:1737-1798 | A block deletes exactly the chats of the connections that had the two groups and no third |
| `Eviction.BlockOnSignals` | internal/database/groups.go:1737-1798 | And exactly these connections' signal groups |
| `Eviction.BlockOnKeys` | internal/database/encrypted_secrets.go:494-629 | On a shared connection of three or more a block does to the rows what a departure of the blocked group does, column by column; secrets of dissolved connections go and those of other connections stay as they are |
| `Eviction.BlockElsewhere` | internal/database/groups.go:1737-1798 | A secret that belongs to no connection is as it was after a block |
| `Custody.RecipientsOnlyShrink` | internal/database/encrypted_secrets.go:262-656 | In any history no step after a secret's creation adds a recipient to it |
| `Conditions.CreateSecretIff` | internal/database/encrypted_secrets.go:66-97 | A secret is created exactly when its signal group, its author and every user named exist and nobody is named twice; each gets the key listed for it, unflagged, and nobody else any |
| `Conditions.DeleteUserIff` | internal/database/users.go:423-439 | A user is deleted exactly when it exists and is no secret's last author; its memberships, bans, keys and mark on chats go and nobody else's |
| `Custody.ExpelledForGood` | internal/database/encrypted_secrets.go:633-656 | A user removed or banned from a group never again, in any continuation, holds a key row of a secret the group owned then |
| `Custody.ExpulsionRevokes` | internal/database/encrypted_secrets.go:633-656 | Removal or ban deletes exactly that user's row on each secret the group owns and flags every remaining row, keys unchanged |
| `Custody.DepartedForGood` | internal/database/encrypted_secrets.go:494-629 | The users of a group that leaves a connection never again hold a key row of a secret the connection had |
| `Custody.EvictedForGood` | internal/database/groups.go:1737-1798 | The same for the users of a group evicted by a block, for every shared connection |
| `Custody.RotationSucceedsIff` | internal/database/encrypted_secrets.go:411-458 | A rotation succeeds exactly when the caller is flagged and the entries name the current recipients, each once, with a key; the caller is then among them and the list is not empty |
| `Custody.RotationEffect` | internal/database/encrypted_secrets.go:460-490 | A successful rotation gives each recipient the key submitted for it, clears both flags of every row, replaces the payload and changes neither recipients nor anything else |
| `Custody.EntriesMatchIff` | internal/database/encrypted_secrets.go:438-458 | The two checking loops accept exactly the lists that name the recipients once each and leave no key empty |
| `Custody.RotationsAnswerRevocations` | internal/database/encrypted_secrets.go:411-656 | Over any stretch of history a secret has at most one more successful rotation than revocations touching it, and no more than those when nobody was flagged at the start |
| `Custody.FirstEntryWins` | internal/handlers/encryption.go:454-478 | The re-key batch is a first-wins fold: a row changes exactly when its pair was pending for the caller and a complete entry names it, and takes the first such entry's key |
| `Custody.CallersRowsStay` | internal/handlers/encryption.go:454-478 | A batch never changes a row of its own caller |
| `Custody.BatchLeavesTheRest` | internal/database/encrypted_secrets.go:224-280 | What is pending for the caller after a batch is what was pending before less the pairs the batch named |
| `Custody.DeletedForGood` | migrations/026_encrypted_secrets.up.sql:29-30 | A deleted user never again holds a key row of a secret there was then, not even if the identifier came back |
| `Custody.FlagOpensRekey` | internal/database/encrypted_secrets.go:215-258 | Flagging raises the re-key flag of exactly the user's own rows, on every secret, and leaves keys, rotation flags and recipients; afterwards the user may re-key nobody, and every other caller may serve what it could before and the user's row wherever both hold one and the caller's is valid |
| `Custody.ServingUndoesTheFlag` | internal/database/encrypted_secrets.go:215-280 | Flagging a user and then serving the user's row leaves that row as it was but for the new key |
| `Entitlement.EntitlementStepIff` | internal/database/encrypted_secrets.go:494-656 | Where every recipient of a connection's secret is a user of a member group, one step of any kind keeps that exactly when it does not take a user out of the last group entitling it to a key it keeps, and does not hand a connection's key to a user of none of its groups |
| `Entitlement.EntitledThroughoutIff` | internal/database/encrypted_secrets.go:494-656 | A whole history has only entitled recipients in all its states exactly when each of its steps was harmless in that sense at its moment |
| `Entitlement.FormerMemberKeepsKeys` | internal/database/encrypted_secrets.go:631-656 | A concrete history: a member without admin rights leaves a group and keeps the key of the group's connection, unflagged, also after the group, which has had its admin all along, has left |
| `Entitlement.DepartedGroupReceivesKeys` | internal/database/connections.go:1028-1133 | A concrete history: a group that has left votes on an open chat, and the approving vote gives its user a fresh key |
| `GroupCustody.HoldersStepIff` | internal/handlers/groups.go:1330-1352 | Where every recipient of a group's secret is a member of the group, one step of any kind keeps that exactly when it does not create a group's secret for somebody who is no member |
| `GroupCustody.HoldersThroughoutIff` | internal/handlers/groups.go:1330-1352 | A whole history has only members among the recipients of groups' secrets in all its states exactly when each secret it creates for a group names only members of that moment |
| `GroupCustody.StrangerReceivesKey` | internal/handlers/groups.go:1330-1352 | A concrete history: a group's secret is created with a key for a user who is no member |
| `Users.KnownThroughout` | migrations/026_encrypted_secrets.up.sql:11-30 | In every state of every history the members of groups, the recipients and authors of secrets and the proposing users of chats are users there are |
| `Users.ReachableIsKnown` | migrations/026_encrypted_secrets.up.sql:11-30 | So they are in every state reachable from the empty database |
| `GroupHistory.SoundThroughout` | internal/database/groups.go:904-1481 | Every step of every history keeps that banned users are not members, that used links stay within their limit, that invitations have the unique key, that identifiers are issued and that nobody vouches for themselves |
| `GroupHistory.ReachableIsSound` | internal/database/groups.go:904-1481 | So every state a newly founded group can reach has them |
| `GroupConditions.JoinIff` | internal/database/groups.go:904-986 | A join succeeds exactly when the link is not past its deadline and has uses left and the user is neither banned nor a member; it makes an ordinary member and uses the link once; each refusal has its error |
| `GroupConditions.LinkAdmitsAtMost` | internal/database/groups.go:904-986 | A link made for a number of uses lets at most that many users in, in any history |
| `GroupConditions.NoLateJoin` | internal/database/groups.go:904-986 | A link made with a deadline lets nobody in after it, in any history |
| `GroupConditions.DeclineIff` | internal/database/groups.go:1164-1200 | An invitation is declined exactly when it is the user's, pending and in time and the user has no other declined one; only that row's status changes; each refusal has its error |
| `GroupConditions.LeaveIff` | internal/handlers/groups.go:535-600 | A member may leave exactly when it is no admin or somebody else is one; each refusal has its error |
| `GroupConditions.VouchIff` | internal/database/groups.go:1392-1481 | A vouch is cast exactly by a trusted member or admin for another member it has not vouched for, and makes that member trusted exactly when its vouchers, the new one included, reach the threshold; each refusal has its error |
| `GroupConditions.GraduateIff` | internal/database/groups.go:1294-1350 | A group becomes active exactly when it has the members it takes, and exactly its founding members then become admins |
| `GroupConditions.BannedStaysOut` | internal/database/groups.go:1886-1908 | A banned user is out at once and stays out in every history until the ban is lifted or the user deleted |
| `GroupConditions.LiftingWrites` | internal/database/groups.go:1911-1919 | Lifting a ban takes exactly that user off the list and lets nobody in |
| `GroupConditions.ForgetWrites` | migrations/036_group_invites.up.sql:31-34 | Deleting a user takes its membership, ban, invitations and the vouches by and for it; invitations it sent stay and forget who sent them |
| `GroupHistory.TrustStepIff` | internal/database/users.go:423-439 | One step keeps the threshold of vouches behind every trusted member exactly when it is not the deletion of a user that leaves another trusted member short: the deletion takes the user's vouches along, not the trust they earned |
| `GroupHistory.TrustThroughoutIff` | internal/database/groups.go:1392-1481 | A whole history keeps the threshold of vouches behind every trusted member in all its states exactly when no deletion in it leaves one short |
| `GroupHistory.TrustIsKeptIff` | migrations/037_access_tiers.up.sql:9 | A founded group keeps the threshold of vouches behind every trusted member in all its histories exactly when the threshold is not one; the column's default, which no statement changes, is two |
| `GroupHistory.TrustCanOutliveItsVouches` | migrations/037_access_tiers.up.sql:22-24 | With the column at one: the only voucher is deleted and the member stays trusted with no vouch |
| `GroupHistory.LinkUsesAreJoins` | internal/database/groups.go:904-986 | A link's use count grows by exactly the joins through it that succeed: a refused join burns no use |
| `GroupHistory.AcceptSucceedsIff` | internal/database/groups.go:1207-1285 | Accepting succeeds exactly when the invitation is the user's, pending and in time, the user is neither banned nor a member, the inviter is still a member, a superuser or forgotten, and the user has accepted no other invitation to the group; it makes an ordinary member and marks that row, and nothing else changes; each refusal has its error |
| `GroupHistory.AcceptedOnceNeverAgain` | migrations/036_group_invites.up.sql:29 | The unique key on group, user and status: after one acceptance no later acceptance of that user to the group ever succeeds, even after leaving and a new invitation, unless the user row itself is deleted |
| `GroupHistory.InviteSucceedsIff` | internal/handlers/groups.go:895-952 | An invitation is created exactly when the inviter is a member or a superuser and the user is neither banned nor a member and has no pending one, expired or not, although the check overlooks expired ones; it is open for seven days; each refusal has its error |
| `GroupHistory.ExpiredInvitationBlocksForever` | internal/database/groups.go:1023-1067 | An invitation left unanswered past its deadline blocks every later invitation of that user to the group, as long as the user row exists |
| `GroupHistory.VouchesCastByTrusted` | internal/database/groups.go:1402-1425 | Every vouch a history adds was cast, when it was cast, by a trusted member or an admin for a member |
| `GroupHistory.TrustNeedsAdmins` | internal/database/groups.go:1392-1481 | If a history from a group without vouches makes anyone trusted, at least as many users as the threshold were admins at some time in it |
| `GroupHistory.TrustReachableIffOneVouchSuffices` | migrations/037_access_tiers.up.sql:9 | Since only the creator is ever a founding member, somebody can earn trust in a founded group exactly when the threshold is at most one; the column's default is two |
| `GroupHistory.AdminsIff` | internal/handlers/groups.go:558-580 | After any history a group's admins are its creator alone, who can never leave, until the creator is once banned or deleted, and nobody from then on, not even the creator let back in |
| `Leadership.OneAdminAtMost` | internal/database/connections.go:873-882 | In every reachable state a group has at most one admin, so looking one up has one answer |
| `Leadership.LosingTheOnlyAdmin` | internal/handlers/groups.go:595-650 | Banning or deleting the only admin leaves a group without one |
| `Leadership.LeaderlessForever` | internal/handlers/groups.go:558-580 | Whatever happens to any of the tables, a group without an admin never gets one |
| `Leadership.WaitsForever` | internal/handlers/connections.go:156-166 | A proposal or chat that waits for a group without an admin is never accepted in any history in which groups answer through their admins |
| `Database.DB.Begin` | internal/database/database.go:50-54 | Keeps the whole state the transaction starts from |
| `Database.DB.Rollback` | internal/database/database.go:55-68 | Puts back exactly the state kept by Begin, on every table; each failing method is proved to leave the tables it found through it |
| `SecretTransactions.EncryptedSecretRepository.CreateTx` | internal/database/encrypted_secrets.go:66-97 | The insert loop creates the secret with one unflagged row per entry, or fails on a missing owner or author, a repeated user or a user that does not exist |
| `SecretTransactions.EncryptedSecretRepository.SubmitRekey` | internal/database/encrypted_secrets.go:262-280 | Updates exactly a waiting row and reports whether there was one |
| `SecretTransactions.EncryptedSecretRepository.SubmitGroupRotation` | internal/database/encrypted_secrets.go:411-490 | Leaves the tables of a rotation that succeeds, and on each refusal the tables it found |
| `SecretTransactions.EncryptedSecretRepository.CheckEntries` | internal/database/encrypted_secrets.go:438-458 | The duplicate, membership and completeness loops decide whether the entries match the recipients |
| `SecretTransactions.EncryptedSecretRepository.RevokeConnectionSecretKeysForGroup` | internal/database/encrypted_secrets.go:494-629 | The member loop, the DELETE and the UPDATE are the revocation the histories are about: on each secret of the connection the group's users' rows go and a remaining row waits for a rotation exactly when it did before or its user is in another member group |
| `SecretTransactions.EncryptedSecretRepository.RevokeGroupSecretKeysForUser` | internal/database/encrypted_secrets.go:633-656 | The same for one user of an owner group |
| `ConnectionTransactions.ConnectionRepository.ProposeConnection` | internal/database/connections.go:39-122 | The insert loop builds the formation roster, skips the proposer, and rolls back on a repeated target |
| `ConnectionTransactions.ConnectionRepository.CheckTargets` | internal/handlers/connections.go:78-110 | The first target that is missing or blocked decides the error |
| `ConnectionTransactions.ConnectionRepository.RespondToProposal` | internal/database/connections.go:125-244 | Every branch leaves the tables of the response it models, or rolls back; only a group with an open entry on a pending proposal before its deadline is let through |
| `ConnectionTransactions.ConnectionRepository.FormConnection` | internal/database/connections.go:247-303 | The member loop makes a connection of exactly the accepted groups and links the proposal to it |
| `ConnectionTransactions.ConnectionRepository.ExpandConnection` | internal/database/connections.go:306-370 | The loop admits newcomers one by one against the members so far |
| `ConnectionTransactions.ConnectionRepository.InviteToConnection` | internal/database/connections.go:481-605 | The checks in order, then an entry for every member and for the invited group |
| `ConnectionTransactions.ConnectionRepository.LeaveConnection` | internal/database/connections.go:608-667 | The statements of a departure leave the tables the eviction theorems are about |
| `ConnectionTransactions.ConnectionRepository.CheckUnanimousBlock` | internal/database/connections.go:670-713 | The loop answers whether the connection has another member and every other member blocks the group |
| `ConnectionTransactions.ConnectionRepository.ProposeSignalChat` | internal/database/connections.go:823-997 | An admin of the proposing group is looked up, the insert loops store the bundle and open one vote per member, or nothing is changed |
| `ConnectionTransactions.ConnectionRepository.VoteOnChatProposal` | internal/database/connections.go:1000-1153 | Every branch leaves the tables of the vote it models, and where the key rows cannot be inserted the vote is rolled back with them; only a group with an open vote on a pending chat before its deadline is let through |
| `ConnectionTransactions.ConnectionRepository.CreateConnectionSignalGroup` | internal/database/connections.go:1314-1365 | Creates the signal group and, for a complete restricted bundle only, its secret with the listed keys, or reports the user that is missing |
| `GroupTransactions.GroupRepository.JoinViaInviteLink` | internal/database/groups.go:904-986 | Membership first, then the use count; every refusal leaves the tables alone |
| `GroupTransactions.GroupRepository.CreateInvitation` | internal/handlers/groups.go:895-952 | The handler's checks of the inviter, of a ban and of a membership come first, then the check for an open invitation, then the insert under the unique key |
| `GroupTransactions.GroupRepository.AcceptInvitation` | internal/database/groups.go:1207-1285 | The mark on the invitation is rolled back when the membership exists already |
| `GroupTransactions.GroupRepository.DeclineInvitation` | internal/database/groups.go:1164-1200 | Only the invited user declines, only a pending invitation before its deadline, and the unique key may still refuse |
| `GroupTransactions.GroupRepository.CreateTrustVouch` | internal/database/groups.go:1392-1481 | The count that decides the promotion includes the vouch just inserted |
| `GroupTransactions.GroupRepository.RemoveMember` | internal/database/groups.go:595-610 | Membership and keys go in one transaction, which succeeds also where there is nothing to delete |
| `GroupTransactions.GroupRepository.BlockAndRemoveMember` | internal/database/groups.go:1886-1908 | Ban, membership and keys change in one transaction |
| `GroupTransactions.GroupRepository.BlockGroup` | internal/database/groups.go:1706-1733 | Block row and eviction in one transaction |
| `GroupTransactions.GroupRepository.EvictBlockedFromSharedConnections` | internal/database/groups.go:1737-1798 | The loop over the shared connections has the closed-form effect on all tables |
| `GroupTransactions.GroupRepository.UnblockGroup` | internal/database/groups.go:1801-1817 | Deletes exactly that block, or reports that there was none |
| `Handlers.EncryptionHandler.SubmitRekeys` | internal/handlers/encryption.go:426-483 | The loop leaves the tables of the fold and reports the number of distinct pairs it served |
| `Handlers.EncryptionHandler.SubmitGroupRotation` | internal/handlers/encryption.go:534-549 | The demand that the caller be named refuses nothing the repository would accept |
| `Handlers.ConnectionHandler.LeaveConnection` | internal/handlers/connections.go:440-462 | A departure followed by the sweep over the remaining members |
| `Handlers.GroupHandler.Leave` | internal/handlers/groups.go:535-600 | The membership check and the loop that counts admins let everybody leave but the last admin |
| `Regions.QueriesEndIffForest` | internal/database/regions.go:703-719 | All downward recursive queries end exactly when the hierarchy is a forest |
| `Regions.GenerationsAreDisjoint` | internal/database/regions.go:703-719 | In a forest UNION ALL lists each region once: no region turns up in two rounds |
| `Regions.UpMeetsDown` | internal/database/regions.go:729-752 | The upward closure of a set reaches a region exactly when the downward closure of that region meets the set, on any table |
| `Regions.AdminQueriesAgree` | internal/database/regions.go:502-752 | The admin count of a region is the number of users the upward check accepts there, and the regions listed for a user are those it accepts |
| `Regions.AdminIff` | internal/database/regions.go:729-752 | A user is an admin of a region exactly through an admin row on that region or one any number of steps below it |
| `Regions.VerifiedIff` | internal/database/regions.go:786-809 | A user is verified in a region exactly through a verified row on it or below it |
| `Regions.UsersListedIffVerified` | internal/database/regions.go:1849-1873 | The users listed for a region are exactly the unblocked non-superusers the upward check finds verified there |
| `RegionMembership.ChainListsAncestors` | internal/database/regions.go:1899-1913 | The ancestor query lists exactly the regions one or more steps above |
| `RegionMembership.RegionRepository.AddUserToAncestorRegionsPending` | internal/database/regions.go:1984-2003 | The loop adds a pending row for each ancestor that had none and changes no other row |
| `RegionMembership.RegionRepository.UpgradeUserRegionAndAncestorsToVerified` | internal/database/regions.go:2072-2104 | Upgrades exactly the user's pending rows on the chain: they are verified and carry the admin flag given, while rows verified before keep theirs and no other row changes |
| `RegionMembership.WholeChainVerified` | internal/database/regions.go:1984-2104 | The pending row for a region, those for its ancestors and then the upgrade, as the three methods leave the table, make the user verified on the whole chain; every other row, and every row verified before, is as it was |
| `RegionMembership.UpgradeMakesAdminsIff` | internal/database/regions.go:2087-2103 | An upgrade without the admin flag makes nobody an admin of any region who was not before; one with it makes the user an admin of every region it had a pending row for |
| `RegionMembership.ChainUpgradeAnswersAsLowest` | internal/database/regions.go:786-809 | Upgrading the chain and upgrading its lowest region alone answer every verification question alike |
| `RegionMembership.CountsAdd` | internal/database/verification.go:453-468 | The vouch count at a region is its own vouches plus the sum of its children's counts |
| `RegionMembership.CountsGrowUpward` | internal/database/verification.go:453-468 | A threshold met at a region is met at every region above it |
| `RegionMembership.CountIsVouchers` | internal/database/verification.go:489-502 | The count equals the number of distinct vouchers listed |
| `RegionCreation.SoundThroughout` | internal/handlers/regions.go:304-841 | Whatever is created and renamed, and whatever the map service answers, the hierarchy stays a forest in which every region has a parent of the type its own type asks for |
| `RegionCreation.ReachableIsSound` | internal/handlers/regions.go:304-841 | So every hierarchy made from nothing is such a forest |
| `RegionCreation.ChainEndsInState` | internal/handlers/regions.go:780-841 | Every region but a locality has a parent chain of the length its type fixes, ending in a state with nothing above it |
| `RegionCreation.CityLandsInStateIff` | internal/handlers/regions.go:541-658 | A city created without a parent, whether its county and state are named or detected from the coordinates, lies in that state exactly when there was no county of that name or the first one lies in it |
| `RegionCreation.CityCanLandInAnotherState` | internal/database/regions.go:1146-1165 | A concrete case: a county name used in two states puts the second state's city in the first, because counties are looked up by name and type alone |
| `RegionCreation.CreateKeeps` | internal/handlers/regions.go:304-334 | Creation changes no region there was, also when it fails after creating parents |
| `RegionCreation.CreateUnderIff` | internal/handlers/regions.go:780-841 | Under a parent that is named, a region is created exactly when that parent exists and is of the type above its own, a locality under any and a state under none; it has the name, type and parent asked for and nothing else is made |
| `RegionCreation.CreateAloneIff` | internal/handlers/regions.go:511-584 | Without a parent a state and a locality are created at the top, a neighborhood and a block refused |
| `RegionCreation.CountyIff` | internal/handlers/regions.go:600-628 | A county without a parent goes under the first state of the name given or else of the name at its coordinates, or under a new one with the name on the boundary; it is refused exactly when there is neither |
| `RegionCreation.CityIff` | internal/handlers/regions.go:541-658 | A city without a parent is created exactly when its county and state are named or lie at its coordinates and each is there already or has a boundary to be made from |
| `RegionCreation.RegionHandler.CreateRegion` | internal/handlers/regions.go:304-334 | Parents on demand, then the type check, then the insert, with the parents kept when a later step fails |
| `RegionCreation.RegionHandler.AutoCreateParentRegions` | internal/handlers/regions.go:511-584 | Which parents are found or made for each type and when the request is refused |
| `RegionLabel.DeriveRegionLabel` | internal/database/groups.go:1938-2022 | The walks, the set of names, the in-place sort and the join give the distinct state names in order, or Unknown when there are none |
| `RegionLabel.LabelReads` | internal/database/groups.go:2005-2022 | No names read Unknown, one name itself, and a further name follows a comma and a blank |
| `RegionLabel.NamesAreOfStatesReached` | internal/database/groups.go:1976-2003 | The names the walks collect are those of the states in the upward closure of the group's regions |
| `Names.SortedListing` | internal/database/groups.go:2009-2021 | A set of names has one strictly ascending listing, so the label does not depend on the order a map is ranged over |
| `Names.Sort` | internal/database/groups.go:2014-2020 | The nested exchange loops permute the array into ascending order |
| `Lockout.FailureRate` | internal/handlers/auth.go:334-365 | Without a successful login, an unlocked account with a clear counter has at most 10 failed password comparisons plus one for each full lock the period holds, a lock being 15 minutes less what storing its end loses |
| `Lockout.FailureRateInSeconds` | migrations/029_account_lockout.up.sql:4 | For a column of whole seconds: at most 10 plus one for each full 899 seconds |
| `Lockout.RateIsReached` | internal/handlers/auth.go:334-365 | The bound is tight whatever storing the end of a lock loses: guessing each time the lock ends, every guess is compared |
| `Lockout.MFAFailuresAreBounded` | internal/handlers/mfa.go:246-285 | In any history there are at most five failed checks for each reset of the counter and what was left of the first five |
| `Lockout.ExhaustedUntilLogin` | internal/handlers/mfa.go:329-343 | After five failures every check is refused, right or wrong, until a login gets through |
| `Lockout.UserRow.Login` | internal/handlers/auth.go:309-411 | Each answer of a login attempt has its exact condition, on the columns: deleted, blocked, locked, wrong password, and for each of the four token types the address, the second factor asked for and the second factor there is; a wrong password counts and the tenth and later ones lock for a quarter of an hour, and a login clears both counters and the lock |
| `Lockout.UserRow.Verify` | internal/handlers/mfa.go:289-439 | Each answer of an MFA check has its exact condition, with the tries left; only a wrong code counts, only a right one clears the counter, and running out of backup codes and errors do neither |
| `StatusCache.StalenessIsBounded` | internal/middleware/user_status_cache.go:31-51 | Under any interleaving, however long other fetches take, a returned status was the table's at an instant less than the time to live plus the delay of its own fetch before |
| `StatusCache.RevocationTakesHold` | internal/middleware/auth.go:314-334 | From the time to live plus the served fetch's own delay after an update that blocks or deletes a user or puts the invalidation time at or after a token's issue, every status served for that user does one of these, with no invalidation, as long as no later update takes it back |
| `StatusCache.InvalidationIsImmediateIff` | internal/middleware/user_status_cache.go:53-56 | Invalidating works at once exactly when no fetch of that user begun before the update is still unstored |
| `StatusCache.InvalidationRefusesAtOnce` | internal/middleware/auth.go:314-334 | Where no such fetch is unstored, from the invalidation on every status served for the user is blocked, deleted or invalidated at or after the token's issue, as long as no later update takes that back |
| `StatusCache.StaleStoreIsServedFor` | internal/middleware/user_status_cache.go:39-50 | Otherwise the stale status is stored and served for a full time to live |
| `StatusCache.UserStatusCache.Load` | internal/middleware/user_status_cache.go:31-38 | Answers the entry exactly when it is younger than the time to live |
| `StatusCache.UserStatusCache.StoreFetched` | internal/middleware/user_status_cache.go:39-50 | Stores what was fetched, with the time of storing, and returns it |
| `StatusCache.UserStatusCache.Evict` | internal/middleware/user_status_cache.go:53-56 | Removes the one entry |
| `StatusCache.Authenticate` | internal/middleware/auth.go:193-235 | A valid token is admitted exactly when its type is on the list and, where a cache is configured, a status was had that is neither blocked nor deleted and was not invalidated at or after the token's issue |
| `TechDebt.BaselineReadsBack` | cmd/tech-debt-classify/main.go:553-571 | Reading the baseline from a rendered report gives the number it was rendered with, whatever the findings contain |
| `TechDebt.ReadBaselineHigh` | cmd/tech-debt-classify/main.go:553-571 | The leftmost match of the mark with at least one digit, and all its digits |
| `TechDebt.CheckComparesCounts` | cmd/tech-debt-classify/main.go:73-83 | Checking against a report of earlier findings compares how many high-priority findings there are with how many there were |
| `TechDebt.CheckFails` | cmd/tech-debt-classify/main.go:73-83 | The check fails exactly when there is a baseline and the high-priority findings outnumber it |
| `Findings.SummaryAddsUp` | cmd/tech-debt-classify/main.go:490-515 | Rows, columns and grand total of the summary agree with one another and with the number of findings |
| `Findings.CellsAreOccurrences` | cmd/tech-debt-classify/main.go:490-515 | A cell of the summary is the number of occurrences of its category and priority among the findings |
| `Findings.RenderSummaryTable` | cmd/tech-debt-classify/main.go:490-515 | The counting maps, with missing keys read as zero, give the table of the counts |
| `ReportText.SummaryReads` | cmd/tech-debt-classify/main.go:490-515 | The summary of any findings, word for word: a row for each category with how many findings of each priority and in all there are, and the same over all categories |
| `ReportLayout.EveryFindingListed` | cmd/tech-debt-classify/main.go:517-551 | The layout whose text is rendered lists every finding exactly as often as it was found |
| `ReportLayout.SectionIsFiled` | cmd/tech-debt-classify/main.go:528-549 | In a priority's section the packages ascend strictly, no table is empty, and each lists findings of that priority and package only |
| `ReportLayout.SortedFindingsKeepOrder` | cmd/tech-debt-classify/main.go:432-551 | Findings sorted by priority and package are listed in exactly their order |
| `ReportLayout.RenderFindingsByPriority` | cmd/tech-debt-classify/main.go:517-551 | The grouping loops, the sort of the packages and the row loops write the text of exactly that layout |
| `ReportText.OneFindingReads` | cmd/tech-debt-classify/main.go:517-551 | The details of one high-priority finding, word for word, with the parts on the priorities that have none |
| `ReportText.HeadReads` | cmd/tech-debt-classify/main.go:517-527 | The part on a priority starts with its name and the number of findings that have it |
| `BraceScan.EveryFunctionMeasuredOnce` | cmd/tech-debt-classify/main.go:213-275 | In a file of functions and other lines the brace scan measures every function once, in order, from its declaration to the line that closes it, with its deepest nesting, and nothing else |
| `BraceScan.MeasuredIffOpenedOnFirstLine` | cmd/tech-debt-classify/main.go:224-238 | A declaration is followed up exactly when its own line leaves a brace open, so a function whose brace comes on a later line is never measured |
| `FunctionScan.ScanFunctions` | cmd/tech-debt-classify/main.go:213-280 | The scanning loop with its counters, on the stripped text of the lines, makes the findings of the reports on that text |
| `TextReports.ReportedInTextIff` | cmd/tech-debt-classify/main.go:213-275 | In a text of functions and other plain lines, counting the braces that stand in it, exactly every function with more lines than the limit and every function nested deeper than the limit is reported, at its declaration and with its length or depth |
| `TextReports.ThreeLinesFound` | cmd/tech-debt-classify/main.go:213-280 | A short function as text, from its lines to the two findings with file, line, package, category, priority, tag and wording, in test and in sensitive packages too |
| `FunctionScan.FunctionsAreNamed` | cmd/tech-debt-classify/main.go:323-344 | A finding calls a function by its name, with or without a receiver before it |
| `BraceScan.ReportedIff` | cmd/tech-debt-classify/main.go:213-275 | The same on lines as the scan sees them, stripped and counted, whatever literals and comments they had |
| `BraceScan.DeclaresIff` | cmd/tech-debt-classify/main.go:213-228 | A line declares a function exactly when the whole word `func` follows its leading white space |
| `BraceScan.BracesCounted` | cmd/tech-debt-classify/main.go:229-244 | The braces counted on a plain line are those it has, each kind on its own; a comment behind it or a literal in it adds none |
| `BraceScan.PlainStays` | cmd/tech-debt-classify/main.go:280-300 | Text without quotes and comments is kept as it is, also a slash that stands alone |
| `BraceScan.StripStringsAndComments` | cmd/tech-debt-classify/main.go:280-321 | The loop with its two flags and its skipped escapes is the recursive stripping of a line |
| `BraceScan.LiteralsVanish` | cmd/tech-debt-classify/main.go:280-321 | A string literal, escapes and all, or a raw one between plain code leaves exactly the code before and what is kept of the rest |
| `BraceScan.CommentsVanish` | cmd/tech-debt-classify/main.go:280-321 | Nothing from the start of a comment on is kept |
| `TechDebt.RenderMarkdown` | cmd/tech-debt-classify/main.go:460-485 | The report is the title, the baseline, the summary and the details |

## Left out

- Lockout.FailureRate: what storing the end of a lock loses is a parameter of each attempt, at most the slack; how the database rounds is not modelled.
- StatusCache.StalenessIsBounded: a fetch may happen at any time in the model, also when the cache has a fresh entry, which only allows more interleavings than the code.
- RegionLabel.DeriveRegionLabel: names are compared character by character, where the code compares bytes of UTF-8; the two orders agree.
- TechDebt.RenderMarkdown: the rubric is a parameter, any fixed text; the findings come in any order, so the sort before rendering is not modelled, and neither are the patterns for annotations and the classification rules.
- FunctionScan.ScanFunctions: text is a sequence of characters, where the code reads bytes.
- BraceScan.LiteralsVanish: raw literals on one line; each line is stripped from scratch, so what a raw literal has on its further lines counts as code.
- TechDebt.ReadBaselineHigh: numbers are unbounded, where the code reads a machine integer.
- GroupTransactions.GroupRepository.CreateInvitation: a user that does not exist is reported as a broken foreign key, where the handler looks the user up first.
- Custody.RecipientsOnlyShrink: `UpdatePayloadAndKeys` and secret update proposals are not steps of the model.
- Handlers.EncryptionHandler.SubmitRekeys: the batch is one step of a history, where the code runs one statement for each entry.
- HTTP decoding and writing, cookies, routing, audit logging, metrics and the checks of who may call a handler, except where a statement names them (`Leadership.WaitsForever`).
- Password hashing, token signing, one-time codes and encryption: their outcomes are parameters, wrapped keys are opaque.
- Request-level validation of a chat's bundle before it reaches the repository.
- Deleting groups and regions; the tables outside the model whose foreign keys can refuse the deletion of a user; the soft deletion that keeps the row.
- Joining a school's group and the ban that skips the membership: they do not make the paired change.
- The group behind a link or an invitation is given to the step, where the code reads it from the row.
- Spatial predicates, boundaries, centroids and the admin count that mixes geometry with parents.
- Listing queries, ordering for display, names and descriptions.
- Backup codes being used up: the check's outcome stands for it.
