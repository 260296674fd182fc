// The tables shared by connections, blocks, chats and wrapped keys, and the
// meaning of every transaction on them (internal/database/connections.go,
// groups.go and encrypted_secrets.go). Child rows live inside the row they
// belong to: a roster inside its proposal, votes inside their chat proposal,
// wrapped keys inside their secret. That nesting carries the primary and unique
// keys of migrations 026, 043, 044 and 051 and their ON DELETE CASCADE.
module Network {
  import opened Prelude
  import G = Groups

  datatype Kind = Formation | Expansion

  datatype Proposal = Proposal(
    kind: Kind,
    connection: Option<ConnId>,
    proposer: GroupId,
    status: Status,
    roster: map<GroupId, Status>,
    expiresAt: int)

  datatype WrappedKey = WrappedKey(user: UserId, dek: string)

  datatype Bundle = Bundle(payload: Option<string>, iv: Option<string>, wrapped: map<UserId, string>)

  datatype Chat = Chat(
    connection: ConnId,
    proposer: GroupId,
    adminOnly: bool,
    bundle: Bundle,
    proposerUser: Option<UserId>,
    status: Status,
    votes: map<GroupId, Status>,
    expiresAt: int)

  datatype ChatRequest = ChatRequest(adminOnly: bool, payload: Option<string>, iv: Option<string>, wrapped: seq<WrappedKey>)

  datatype SignalOwner = ByGroup(group: GroupId) | ByConnection(connection: ConnId) | ByOther

  datatype SignalGroup = SignalGroup(owner: SignalOwner, active: bool)

  datatype KeyRow = KeyRow(dek: string, rekeyNeeded: bool, rotationPending: bool)

  datatype SecretOwner = OfSignalGroup(signal: SignalId) | OfChannel(channel: nat)

  datatype Secret = Secret(owner: SecretOwner, payload: string, iv: string, updatedBy: UserId, keys: map<UserId, KeyRow>)

  datatype Net = Net(
    next: nat,                                // identifier supply
    users: set<UserId>,                       // rows of the user table
    groups: map<GroupId, G.Group>,
    blocks: set<(GroupId, GroupId)>,          // (blocker, blocked)
    conns: map<ConnId, set<GroupId>>,         // connection members
    proposals: map<PropId, Proposal>,
    chats: map<ChatId, Chat>,
    signals: map<SignalId, SignalGroup>,
    secrets: map<SecretId, Secret>)

  const EMPTY := Net(0, {}, map[], {}, map[], map[], map[], map[], map[])
  const PROPOSAL_LIFETIME := 7 * 24 * 60 * 60
  const MAX_SIGNAL_GROUPS := 5

  // ---- Queries ----

  function UsersOf(n: Net, g: GroupId): set<UserId> {
    if g in n.groups then G.Users(n.groups[g]) else {}
  }

  function MembersOf(n: Net, c: ConnId): set<GroupId> {
    if c in n.conns then n.conns[c] else {}
  }

  predicate Blocked(blocks: set<(GroupId, GroupId)>, a: GroupId, b: GroupId) {
    (a, b) in blocks || (b, a) in blocks
  }

  predicate BlockedWithAny(blocks: set<(GroupId, GroupId)>, g: GroupId, members: set<GroupId>) {
    exists m :: m in members && Blocked(blocks, m, g)
  }

  function WithStatus(roster: map<GroupId, Status>, status: Status): set<GroupId> {
    set g | g in roster && roster[g] == status
  }

  /** The connection a secret belongs to through its signal group, if any. */
  function ConnectionOf(n: Net, s: Secret): Option<ConnId> {
    if s.owner.OfSignalGroup? && s.owner.signal in n.signals && n.signals[s.owner.signal].owner.ByConnection?
    then Some(n.signals[s.owner.signal].owner.connection) else None
  }

  /** The group that owns a secret through its signal group, if any. */
  function OwnerGroupOf(n: Net, s: Secret): Option<GroupId> {
    if s.owner.OfSignalGroup? && s.owner.signal in n.signals && n.signals[s.owner.signal].owner.ByGroup?
    then Some(n.signals[s.owner.signal].owner.group) else None
  }

  function SignalsOf(n: Net, c: ConnId): set<SignalId> {
    set sg | sg in n.signals && n.signals[sg].owner == ByConnection(c)
  }

  // ---- Proposals (connections.go:39-244) ----

  /** A target repeated in the request violates the unique key on (proposal, group). */
  predicate TargetsRepeat(proposer: GroupId, targets: seq<GroupId>) {
    exists i, j :: 0 <= i < j < |targets| && targets[i] == targets[j] != proposer
  }

  function Listed(targets: seq<GroupId>): set<GroupId> {
    set g | g in targets
  }

  /** The handler checks the targets in order before anything is written. */
  function TargetError(n: Net, proposer: GroupId, targets: seq<GroupId>): Option<Error> {
    if targets == [] then None
    else if targets[0] !in n.groups then Some(GroupNotFound)
    else if Blocked(n.blocks, targets[0], proposer) then Some(GroupBlocked)
    else TargetError(n, proposer, targets[1..])
  }

  function FormationRoster(proposer: GroupId, targets: seq<GroupId>): map<GroupId, Status> {
    map g | g in Listed(targets) + {proposer} :: if g == proposer then Accepted else Pending
  }

  function Propose(n: Net, proposer: GroupId, targets: seq<GroupId>, now: int): Result<Net, Error> {
    if targets == [] then Err(InvalidRequest)
    else if proposer !in n.groups then Err(GroupNotFound)
    else if TargetError(n, proposer, targets).Some? then Err(TargetError(n, proposer, targets).value)
    else if TargetsRepeat(proposer, targets) then Err(ConstraintViolation)
    else Ok(n.(next := n.next + 1,
               proposals := n.proposals[n.next :=
                 Proposal(Formation, None, proposer, Pending, FormationRoster(proposer, targets), now + PROPOSAL_LIFETIME)]))
  }

  function ExpansionRoster(members: set<GroupId>, proposer: GroupId, target: GroupId): map<GroupId, Status> {
    map g | g in members + {proposer, target} :: if g == proposer then Accepted else Pending
  }

  function Invite(n: Net, c: ConnId, proposer: GroupId, target: GroupId, now: int): Result<Net, Error> {
    if target !in n.groups then Err(GroupNotFound)
    else if c !in n.conns then Err(ConnectionNotFound)
    else if BlockedWithAny(n.blocks, target, n.conns[c]) then Err(GroupBlocked)
    else if proposer !in n.conns[c] then Err(NotConnectionMember)
    else if target in n.conns[c] then Err(AlreadyConnected)
    else Ok(n.(next := n.next + 1,
               proposals := n.proposals[n.next :=
                 Proposal(Expansion, Some(c), proposer, Pending, ExpansionRoster(n.conns[c], proposer, target), now + PROPOSAL_LIFETIME)]))
  }

  /** expandConnection admits the newcomers one by one, each checked against the
      blocks with the members so far. */
  function Admit(members: set<GroupId>, blocks: set<(GroupId, GroupId)>, newcomers: seq<GroupId>): set<GroupId>
    decreases |newcomers|
  {
    if newcomers == [] then members
    else Admit(if BlockedWithAny(blocks, newcomers[0], members) then members else members + {newcomers[0]},
               blocks, newcomers[1..])
  }

  /** The accepted groups of a roster that are not members yet. */
  function Newcomers(roster: map<GroupId, Status>, members: set<GroupId>): set<GroupId> {
    WithStatus(roster, Accepted) - members
  }

  function FormConnection(n: Net, p: PropId): Net
    requires p in n.proposals
  {
    n.(next := n.next + 1,
       conns := n.conns[n.next := WithStatus(n.proposals[p].roster, Accepted)],
       proposals := n.proposals[p := n.proposals[p].(connection := Some(n.next))])
  }

  function ExpandConnection(n: Net, p: PropId, c: ConnId): Result<Net, Error>
    requires p in n.proposals
  {
    if c !in n.conns then
      (if Newcomers(n.proposals[p].roster, {}) == {} then Ok(n) else Err(ConstraintViolation))
    else
      Ok(n.(conns := n.conns[c := Admit(n.conns[c], n.blocks, RowOrder(Newcomers(n.proposals[p].roster, n.conns[c])))]))
  }

  function Answer(accept: bool): Status { if accept then Accepted else Declined }

  function SetProposalStatus(n: Net, p: PropId, status: Status): Net
    requires p in n.proposals
  {
    n.(proposals := n.proposals[p := n.proposals[p].(status := status)])
  }

  /** The checks a response passes before it is recorded. */
  function ResponseError(n: Net, p: PropId, g: GroupId, now: int): Option<Error> {
    if p !in n.proposals then Some(ProposalNotFound)
    else
      var prop := n.proposals[p];
      if prop.status != Pending || now > prop.expiresAt then Some(ProposalNotPending)
      else if g !in prop.roster then Some(GroupNotInProposal)
      else if prop.roster[g] != Pending then Some(AlreadyResponded)
      else None
  }

  function RecordResponse(n: Net, p: PropId, g: GroupId, accept: bool): Net
    requires p in n.proposals
  {
    n.(proposals := n.proposals[p := n.proposals[p].(roster := n.proposals[p].roster[g := Answer(accept)])])
  }

  function Respond(n: Net, p: PropId, g: GroupId, accept: bool, now: int): Result<Net, Error> {
    var error := ResponseError(n, p, g, now);
    if error.Some? then Err(error.value)
    else
      var n1 := RecordResponse(n, p, g, accept);
      if !accept then Ok(SetProposalStatus(n1, p, Declined))
      else if WithStatus(n1.proposals[p].roster, Pending) != {} then Ok(n1)
      else if n1.proposals[p].kind.Formation? then Ok(SetProposalStatus(FormConnection(n1, p), p, Accepted))
      else if n1.proposals[p].connection.None? then Ok(SetProposalStatus(n1, p, Accepted))
      else
        var expanded := ExpandConnection(n1, p, n1.proposals[p].connection.value);
        if expanded.Err? then expanded else Ok(SetProposalStatus(expanded.value, p, Accepted))
  }

  // ---- Leaving, eviction and revocation of connection keys ----

  function SurvivingUsers(n: Net, c: ConnId, leaving: GroupId): set<UserId> {
    set g, u | g in MembersOf(n, c) && g != leaving && u in UsersOf(n, g) :: u
  }

  /** Deletes the rows of `leaving` users and flags those of `surviving` ones. */
  function RevokeKeys(keys: map<UserId, KeyRow>, leaving: set<UserId>, surviving: set<UserId>): map<UserId, KeyRow> {
    map u | u in keys && u !in leaving ::
      if u in surviving then keys[u].(rotationPending := true) else keys[u]
  }

  /** RevokeConnectionSecretKeysForGroup (encrypted_secrets.go:494-629). */
  function RevokeForGroup(n: Net, c: ConnId, g: GroupId): Net {
    n.(secrets := map s | s in n.secrets ::
      if ConnectionOf(n, n.secrets[s]) == Some(c)
      then n.secrets[s].(keys := RevokeKeys(n.secrets[s].keys, UsersOf(n, g), SurvivingUsers(n, c, g)))
      else n.secrets[s])
  }

  /** Deleting a connection cascades to its proposals, chat proposals and signal
      groups, and through these to their secrets. */
  function DeleteConnection(n: Net, c: ConnId): Net {
    n.(conns := n.conns - {c},
       proposals := map p | p in n.proposals && n.proposals[p].connection != Some(c) :: n.proposals[p],
       chats := map h | h in n.chats && n.chats[h].connection != c :: n.chats[h],
       signals := map sg | sg in n.signals && n.signals[sg].owner != ByConnection(c) :: n.signals[sg],
       secrets := map s | s in n.secrets && ConnectionOf(n, n.secrets[s]) != Some(c) :: n.secrets[s])
  }

  function DropPendingProposals(n: Net, c: ConnId): Net {
    n.(proposals := map p | p in n.proposals && !(n.proposals[p].connection == Some(c) && n.proposals[p].status == Pending)
         :: n.proposals[p])
  }

  function DeleteMember(n: Net, c: ConnId, g: GroupId): Net {
    if c in n.conns then n.(conns := n.conns[c := n.conns[c] - {g}]) else n
  }

  /** The steps shared by leaving and eviction, one after the other. */
  function RemoveFromConnection(n: Net, c: ConnId, g: GroupId): Net {
    var n1 := RevokeForGroup(n, c, g);
    var n2 := DeleteMember(n1, c, g);
    if |MembersOf(n2, c)| <= 1 then DeleteConnection(n2, c) else DropPendingProposals(n2, c)
  }

  function Leave(n: Net, c: ConnId, g: GroupId): Result<Net, Error> {
    if g !in MembersOf(n, c) then Err(NotConnectionMember) else Ok(RemoveFromConnection(n, c, g))
  }

  function SharedConnections(n: Net, a: GroupId, b: GroupId): set<ConnId> {
    set c | c in n.conns && a in n.conns[c] && b in n.conns[c]
  }

  /** evictBlockedFromSharedConnectionsTx takes the shared connections one by one. */
  function EvictEach(n: Net, cs: seq<ConnId>, g: GroupId): Net
    decreases |cs|
  {
    if cs == [] then n else EvictEach(RemoveFromConnection(n, cs[0], g), cs[1..], g)
  }

  function Block(n: Net, a: GroupId, b: GroupId): Result<Net, Error> {
    if a == b then Err(CannotBlockSelf)
    else if (a, b) in n.blocks then Err(AlreadyBlocked)
    else if a !in n.groups || b !in n.groups then Err(ConstraintViolation)
    else Ok(EvictEach(n.(blocks := n.blocks + {(a, b)}), RowOrder(SharedConnections(n, a, b)), b))
  }

  function Unblock(n: Net, a: GroupId, b: GroupId): Result<Net, Error> {
    if (a, b) !in n.blocks then Err(GroupNotFound) else Ok(n.(blocks := n.blocks - {(a, b)}))
  }

  /** CheckUnanimousBlock (connections.go:669-713). */
  predicate UnanimouslyBlocked(n: Net, c: ConnId, g: GroupId) {
    && c in n.conns && n.conns[c] - {g} != {}
    && forall m :: m in n.conns[c] && m != g ==> (m, g) in n.blocks
  }

  /** The loop after a departure: each listed member that everybody else blocks
      is made to leave too. */
  function SweepBlocked(n: Net, c: ConnId, listed: seq<GroupId>): Net
    decreases |listed|
  {
    if listed == [] then n
    else
      var left := Leave(n, c, listed[0]);
      SweepBlocked(if UnanimouslyBlocked(n, c, listed[0]) && left.Ok? then left.value else n, c, listed[1..])
  }

  // ---- Chat proposals (connections.go:823-1153, 1314-1365) ----

  predicate Present(text: Option<string>) { text.Some? && text.value != "" }

  function FreshRows(wrapped: map<UserId, string>): map<UserId, KeyRow> {
    map u | u in wrapped :: KeyRow(wrapped[u], false, false)
  }

  predicate BundleComplete(h: Chat) {
    h.adminOnly && h.proposerUser.Some? && Present(h.bundle.payload) && Present(h.bundle.iv) && h.bundle.wrapped.Keys != {}
  }

  /** createConnectionSignalGroup: one signal group, and for a restricted chat
      with a complete bundle one secret with the stored wrapped keys. Only then are
      the users the keys name held against the user table. */
  function CreateSignalGroup(n: Net, h: Chat): Result<Net, Error> {
    var n1 := n.(next := n.next + 1, signals := n.signals[n.next := SignalGroup(ByConnection(h.connection), true)]);
    if !BundleComplete(h) then Ok(n1)
    else if !(h.bundle.wrapped.Keys + {h.proposerUser.value} <= n.users) then Err(ConstraintViolation)
    else Ok(n1.(next := n1.next + 1,
                secrets := n1.secrets[n1.next := Secret(OfSignalGroup(n.next), h.bundle.payload.value, h.bundle.iv.value,
                                                        h.proposerUser.value, FreshRows(h.bundle.wrapped))]))
  }

  function ActiveSignals(n: Net, c: ConnId): set<SignalId> {
    set sg | sg in SignalsOf(n, c) && n.signals[sg].active
  }

  /** A user repeated among the wrapped keys violates their primary key. */
  predicate UsersRepeat(wrapped: seq<WrappedKey>) {
    exists i, j :: 0 <= i < j < |wrapped| && wrapped[i].user == wrapped[j].user
  }

  /** The rows inserted for a list of wrapped keys. */
  function WrappedRows(wrapped: seq<WrappedKey>): map<UserId, string> {
    if wrapped == [] then map[]
    else WrappedRows(wrapped[..|wrapped| - 1])[wrapped[|wrapped| - 1].user := wrapped[|wrapped| - 1].dek]
  }

  function OpeningVotes(members: set<GroupId>, proposer: GroupId): map<GroupId, Status> {
    map g | g in members :: if g == proposer then Accepted else Pending
  }

  function AdminsOf(n: Net, g: GroupId): set<UserId> {
    if g in n.groups then G.Admins(n.groups[g]) else {}
  }

  /** What looking up an admin of a group can return: any of them, or nothing where
      there is none. */
  predicate AdminRow(n: Net, g: GroupId, admin: Option<UserId>) {
    match admin
    case Some(u) => u in AdminsOf(n, g)
    case None => AdminsOf(n, g) == {}
  }

  /** `admin` is what looking up an admin of the proposing group returns; with
      anything else there is no such step. */
  function ProposeChat(n: Net, c: ConnId, proposer: GroupId, req: ChatRequest, admin: Option<UserId>, now: int): Result<Net, Error> {
    if c !in n.conns then Err(ConnectionNotFound)
    else if proposer !in n.conns[c] then Err(NotConnectionMember)
    else if |ActiveSignals(n, c)| >= MAX_SIGNAL_GROUPS then Err(SignalGroupLimit)
    else if !AdminRow(n, proposer, admin) then Err(InvalidRequest)
    else if UsersRepeat(req.wrapped) || (admin.Some? && admin.value !in n.users) then Err(ConstraintViolation)
    else
      var h := Chat(c, proposer, req.adminOnly, Bundle(req.payload, req.iv, WrappedRows(req.wrapped)), admin, Pending,
                    OpeningVotes(n.conns[c], proposer), now + PROPOSAL_LIFETIME);
      var n1 := n.(next := n.next + 1, chats := n.chats[n.next := h]);
      if |n.conns[c]| != 1 then Ok(n1)
      else
        var created := CreateSignalGroup(n1, h);
        if created.Err? then created else Ok(created.value.(chats := n1.chats[n.next := h.(status := Accepted)]))
  }

  function VoteError(n: Net, h: ChatId, g: GroupId, now: int): Option<Error> {
    if h !in n.chats then Some(ChatNotFound)
    else
      var chat := n.chats[h];
      if chat.status != Pending || now > chat.expiresAt then Some(ProposalNotPending)
      else if g !in chat.votes then Some(GroupNotInProposal)
      else if chat.votes[g] != Pending then Some(AlreadyResponded)
      else None
  }

  function Vote(n: Net, h: ChatId, g: GroupId, approve: bool, now: int): Result<Net, Error> {
    var error := VoteError(n, h, g, now);
    if error.Some? then Err(error.value)
    else
      var chat := n.chats[h].(votes := n.chats[h].votes[g := Answer(approve)]);
      if !approve then Ok(n.(chats := n.chats[h := chat.(status := Declined)]))
      else if WithStatus(chat.votes, Pending) != {} then Ok(n.(chats := n.chats[h := chat]))
      else
        var created := CreateSignalGroup(n, chat);
        if created.Err? then created else Ok(created.value.(chats := n.chats[h := chat.(status := Accepted)]))
  }

  // ---- Wrapped keys (encrypted_secrets.go) ----

  function CreateSecret(n: Net, owner: SecretOwner, payload: string, iv: string, author: UserId, wrapped: seq<WrappedKey>): Result<Net, Error> {
    if (owner.OfSignalGroup? && owner.signal !in n.signals) || author !in n.users then Err(ConstraintViolation)
    else if UsersRepeat(wrapped) || !(WrappedRows(wrapped).Keys <= n.users) then Err(ConstraintViolation)
    else Ok(n.(next := n.next + 1,
               secrets := n.secrets[n.next := Secret(owner, payload, iv, author, FreshRows(WrappedRows(wrapped)))]))
  }

  function WithKeys(n: Net, s: SecretId, keys: map<UserId, KeyRow>): Net
    requires s in n.secrets
  {
    n.(secrets := n.secrets[s := n.secrets[s].(keys := keys)])
  }

  function FlagKeys(keys: map<UserId, KeyRow>, user: UserId): map<UserId, KeyRow> {
    map u | u in keys :: if u == user then keys[u].(rekeyNeeded := true) else keys[u]
  }

  function FlagRekeyForUser(n: Net, user: UserId): Net {
    n.(secrets := map s | s in n.secrets :: n.secrets[s].(keys := FlagKeys(n.secrets[s].keys, user)))
  }

  /** GetPendingRekeys: the (secret, target) pairs where the target has a public
      key and waits for a re-key while the caller holds a valid key. */
  function PendingRekeys(n: Net, caller: UserId, publicKeys: set<UserId>): set<(SecretId, UserId)> {
    set s, t | s in n.secrets && t in n.secrets[s].keys && t in publicKeys
               && n.secrets[s].keys[t].rekeyNeeded
               && caller in n.secrets[s].keys && !n.secrets[s].keys[caller].rekeyNeeded
      :: (s, t)
  }

  predicate RekeyWaits(n: Net, s: SecretId, target: UserId) {
    s in n.secrets && target in n.secrets[s].keys && n.secrets[s].keys[target].rekeyNeeded
  }

  /** SubmitRekey writes one row, and only a row that waits for a re-key. */
  function SubmitRekey(n: Net, s: SecretId, target: UserId, dek: string): Net
    requires RekeyWaits(n, s, target)
  {
    WithKeys(n, s, n.secrets[s].keys[target := n.secrets[s].keys[target].(dek := dek, rekeyNeeded := false)])
  }

  datatype RekeyEntry = RekeyEntry(secret: Option<SecretId>, target: Option<UserId>, dek: string)

  predicate Complete(e: RekeyEntry) {
    e.secret.Some? && e.target.Some? && e.dek != ""
  }

  /** The handler's loop over a batch, against the pairs allowed at its start. */
  function SubmitRekeys(n: Net, allowed: set<(SecretId, UserId)>, entries: seq<RekeyEntry>): Net {
    if entries == [] then n
    else
      var n1 := SubmitRekeys(n, allowed, entries[..|entries| - 1]);
      var e := entries[|entries| - 1];
      if Complete(e) && (e.secret.value, e.target.value) in allowed && RekeyWaits(n1, e.secret.value, e.target.value)
      then SubmitRekey(n1, e.secret.value, e.target.value, e.dek) else n1
  }

  /** The first reason a rotation is refused: entries are read in order, then the
      recipients are checked for one left out. */
  predicate EntriesMatch(wrapped: seq<WrappedKey>, recipients: set<UserId>) {
    && (forall i :: 0 <= i < |wrapped| ==> wrapped[i].dek != "" && wrapped[i].user in recipients)
    && !UsersRepeat(wrapped)
    && (forall u :: u in recipients ==> exists i :: 0 <= i < |wrapped| && wrapped[i].user == u)
  }

  function Rotate(n: Net, s: SecretId, caller: UserId, payload: string, iv: string, wrapped: seq<WrappedKey>): Result<Net, Error> {
    if !(s in n.secrets && caller in n.secrets[s].keys && n.secrets[s].keys[caller].rotationPending) then Err(NoPendingRotation)
    else if !EntriesMatch(wrapped, n.secrets[s].keys.Keys) then Err(WrongRecipients)
    else Ok(n.(secrets := n.secrets[s :=
      Secret(n.secrets[s].owner, payload, iv, caller, FreshRows(WrappedRows(wrapped)))]))
  }

  /** RevokeGroupSecretKeysForUser: deletes the user's rows on the group's
      secrets and flags every row that remains on them. */
  function RevokeForUser(n: Net, g: GroupId, user: UserId): Net {
    n.(secrets := map s | s in n.secrets ::
      if OwnerGroupOf(n, n.secrets[s]) == Some(g)
      then n.secrets[s].(keys := RevokeKeys(n.secrets[s].keys, {user}, n.secrets[s].keys.Keys))
      else n.secrets[s])
  }

  // ---- Steps inside one group ----

  /** RemoveMember deletes the membership, if there is one, and revokes the user's
      keys on the group's secrets. */
  function RemoveFromGroup(n: Net, g: GroupId, user: UserId): Net {
    RevokeForUser(if g in n.groups then n.(groups := n.groups[g := G.RemoveMember(n.groups[g], user)]) else n, g, user)
  }

  /** A departure or a ban also revokes the user's keys on the group's secrets. Where
      there is no such group, lifting a ban deletes nothing. */
  function InGroup(n: Net, g: GroupId, e: G.Event): Result<Net, Error> {
    if e.Forget? then Err(InvalidRequest)
    else if g !in n.groups then
      (match e
       case Leave(_) => Err(NotMember)
       case Unban(_) => Ok(n)
       case _ => Err(GroupNotFound))
    else
      var o := G.Outcome(n.groups[g], e);
      if o.Err? then Err(o.error)
      else if !(G.Named(e) <= n.users) then Err(ConstraintViolation)
      else
        var n1 := n.(groups := n.groups[g := o.value]);
        Ok(match e
           case Leave(u) => RevokeForUser(n1, g, u)
           case Ban(u) => RevokeForUser(n1, g, u)
           case _ => n1)
  }

  // ---- Users ----

  /** A new user; taken identifiers are refused. */
  function Register(n: Net, u: UserId): Result<Net, Error> {
    if u in n.users then Err(ConstraintViolation) else Ok(n.(users := n.users + {u}))
  }

  /** Deleting a user row: refused while a secret names the user as its last author;
      otherwise the foreign keys delete the user's memberships, bans, vouches,
      invitations and wrapped keys and forget whom a chat was proposed by. The keys
      stored with a chat proposal have no foreign key and stay. */
  function DeleteUser(n: Net, u: UserId): Result<Net, Error> {
    if u !in n.users then Err(InvalidRequest)
    else if exists s :: s in n.secrets && n.secrets[s].updatedBy == u then Err(ConstraintViolation)
    else Ok(n.(users := n.users - {u},
               groups := map g | g in n.groups :: G.ForgetUser(n.groups[g], u),
               chats := map h | h in n.chats ::
                 if n.chats[h].proposerUser == Some(u) then n.chats[h].(proposerUser := None) else n.chats[h],
               secrets := map s | s in n.secrets :: n.secrets[s].(keys := n.secrets[s].keys - {u})))
  }

  // ---- Events ----

  datatype Event =
    | AddUser(user: UserId)
    | RemoveUser(user: UserId)
    | FoundGroup(creator: UserId, threshold: int)
    | GroupEvent(group: GroupId, event: G.Event)
    | ProposeConnection(proposer: GroupId, targets: seq<GroupId>, now: int)
    | RespondToProposal(proposal: PropId, group: GroupId, accept: bool, now: int)
    | InviteToConnection(connection: ConnId, proposer: GroupId, target: GroupId, now: int)
    | LeaveConnection(connection: ConnId, group: GroupId)
    | BlockGroup(blocker: GroupId, blocked: GroupId)
    | UnblockGroup(blocker: GroupId, blocked: GroupId)
    | ProposeSignalChat(connection: ConnId, proposer: GroupId, req: ChatRequest, admin: Option<UserId>, now: int)
    | VoteOnChat(chat: ChatId, group: GroupId, approve: bool, now: int)
    | AddGroupSignal(owner: Option<GroupId>)
    | DeactivateSignal(signal: SignalId)
    | AddSecret(secretOwner: SecretOwner, payload: string, iv: string, author: UserId, wrapped: seq<WrappedKey>)
    | FlagRekey(user: UserId)
    | Rekey(caller: UserId, publicKeys: set<UserId>, entries: seq<RekeyEntry>)
    | RotateSecret(secret: SecretId, caller: UserId, payload: string, iv: string, wrapped: seq<WrappedKey>)

  function Outcome(n: Net, e: Event): Result<Net, Error> {
    match e
    case AddUser(u) => Register(n, u)
    case RemoveUser(u) => DeleteUser(n, u)
    case FoundGroup(u, t) => if u !in n.users then Err(ConstraintViolation) else Ok(n.(next := n.next + 1, groups := n.groups[n.next := G.Founded(u, t)]))
    case GroupEvent(g, ge) => InGroup(n, g, ge)
    case ProposeConnection(g, ts, now) => Propose(n, g, ts, now)
    case RespondToProposal(p, g, accept, now) => Respond(n, p, g, accept, now)
    case InviteToConnection(c, g, t, now) => Invite(n, c, g, t, now)
    case LeaveConnection(c, g) => Leave(n, c, g)
    case BlockGroup(a, b) => Block(n, a, b)
    case UnblockGroup(a, b) => Unblock(n, a, b)
    case ProposeSignalChat(c, g, req, admin, now) => ProposeChat(n, c, g, req, admin, now)
    case VoteOnChat(h, g, approve, now) => Vote(n, h, g, approve, now)
    case AddGroupSignal(owner) =>
      if owner.Some? && owner.value !in n.groups then Err(ConstraintViolation)
      else Ok(n.(next := n.next + 1,
                 signals := n.signals[n.next := SignalGroup(if owner.Some? then ByGroup(owner.value) else ByOther, true)]))
    case DeactivateSignal(sg) =>
      Ok(if sg in n.signals then n.(signals := n.signals[sg := n.signals[sg].(active := false)]) else n)
    case AddSecret(owner, payload, iv, author, wrapped) => CreateSecret(n, owner, payload, iv, author, wrapped)
    case FlagRekey(u) => Ok(FlagRekeyForUser(n, u))
    case Rekey(caller, publicKeys, entries) => Ok(SubmitRekeys(n, PendingRekeys(n, caller, publicKeys), entries))
    case RotateSecret(s, caller, payload, iv, wrapped) => Rotate(n, s, caller, payload, iv, wrapped)
  }

  /** One transaction (database.go:50-68): it commits its outcome or rolls back to
      the state before it. */
  function Step(n: Net, e: Event): Net {
    var o := Outcome(n, e);
    if o.Ok? then o.value else n
  }

  function Run(n: Net, es: seq<Event>): Net
    decreases |es|
  {
    if es == [] then n else Run(Step(n, es[0]), es[1..])
  }
}
