// The status cache in front of the user table: lookups, delayed stores, updates
// and invalidations interleaved in any order, and how stale an answer can be
// (internal/middleware/user_status_cache.go, auth.go, internal/database/users.go).
module StatusCache {
  import opened Prelude

  type LookupId = nat

  datatype UserStatus = UserStatus(invalidatedAt: Option<int>, blocked: bool, deleted: bool)

  /** The user table from instant `at` on. */
  datatype Version = Version(at: int, users: map<UserId, UserStatus>)

  /** A status read from the table; `version` and `readAt` record which version was
      read and when, and no decision looks at them. */
  datatype Read = Read(user: UserId, status: UserStatus, version: nat, readAt: int)

  datatype Entry = Entry(read: Read, fetchedAt: int)

  datatype World = World(
    now: int,
    log: seq<Version>,                   // the table's versions, newest last
    entries: map<UserId, Entry>,         // the cache
    pending: map<LookupId, Read>)        // read from the table, not yet stored

  datatype Event =
    | Update(user: UserId, status: UserStatus, at: int)
    | Fetch(lookup: LookupId, user: UserId, at: int)   // a miss reads the table
    | Store(lookup: LookupId, at: int)                 // ... and later stores and returns
    | Hit(user: UserId, at: int)                       // a fresh entry is returned
    | Invalidate(user: UserId, at: int)

  predicate Fresh(w: World, u: UserId, at: int, ttl: int) {
    u in w.entries && at - w.entries[u].fetchedAt < ttl
  }

  function Latest(w: World): map<UserId, UserStatus> {
    if w.log == [] then map[] else w.log[|w.log| - 1].users
  }

  function Step(w: World, e: Event): World {
    match e
    case Update(u, st, at) => w.(now := at, log := w.log + [Version(at, Latest(w)[u := st])])
    case Fetch(l, u, at) =>
      if u in Latest(w) then w.(now := at, pending := w.pending[l := Read(u, Latest(w)[u], |w.log| - 1, at)])
      else w.(now := at)
    case Store(l, at) =>
      if l in w.pending
      then w.(now := at, entries := w.entries[w.pending[l].user := Entry(w.pending[l], at)], pending := w.pending - {l})
      else w.(now := at)
    case Hit(u, at) => w.(now := at)
    case Invalidate(u, at) => w.(now := at, entries := w.entries - {u})
  }

  /** What a step returns to its caller, if anything. */
  function Served(w: World, e: Event, ttl: int): Option<Read> {
    match e
    case Store(l, at) => if l in w.pending then Some(w.pending[l]) else None
    case Hit(u, at) => if Fresh(w, u, at, ttl) then Some(w.entries[u].read) else None
    case _ => None
  }

  function Run(w: World, es: seq<Event>): World
    decreases |es|
  {
    if es == [] then w else Run(Step(w, es[0]), es[1..])
  }

  /** checkUserRevoked's decision on a status. */
  predicate Revoked(status: UserStatus, issuedAt: Option<int>) {
    status.blocked || status.deleted
    || (status.invalidatedAt.Some? && issuedAt.Some? && issuedAt.value <= status.invalidatedAt.value)
  }

  // ---- The cache as an object ----

  /** Entries as the cache holds them. */
  datatype Cached = Cached(status: UserStatus, fetchedAt: int)

  class UserStatusCache {
    const ttl: int
    var entries: map<UserId, Cached>

    constructor (ttl: int)
      ensures this.ttl == ttl && entries == map[]
    {
      this.ttl := ttl;
      entries := map[];
    }

    /** The entries are those of `w`, without its record of versions. */
    ghost predicate Holds(w: World)
      reads this
    {
      && entries.Keys == w.entries.Keys
      && forall u :: u in entries ==> entries[u] == Cached(w.entries[u].read.status, w.entries[u].fetchedAt)
    }

    /** The first half of GetUserStatus: a fresh entry, or a miss. */
    method Load(u: UserId, at: int, ghost w: World) returns (status: Option<UserStatus>)
      requires Holds(w)
      ensures status == match Served(w, Hit(u, at), ttl) { case Some(read) => Some(read.status) case None => None }
      ensures status == if u in entries && at < entries[u].fetchedAt + ttl then Some(entries[u].status) else None
      ensures Holds(Step(w, Hit(u, at)))
    {
      if u in entries && at - entries[u].fetchedAt < ttl {
        return Some(entries[u].status);
      }
      return None;
    }

    /** The second half, after the table has answered: store and return. */
    method StoreFetched(l: LookupId, u: UserId, fetched: UserStatus, at: int, ghost w: World) returns (status: UserStatus)
      requires Holds(w) && l in w.pending && w.pending[l].user == u && w.pending[l].status == fetched
      modifies this`entries
      ensures Some(status) == match Served(w, Store(l, at), ttl) { case Some(read) => Some(read.status) case None => None }
      ensures status == fetched && entries == old(entries)[u := Cached(fetched, at)]
      ensures Holds(Step(w, Store(l, at)))
    {
      entries := entries[u := Cached(fetched, at)];
      status := fetched;
    }

    method Evict(u: UserId, at: int, ghost w: World)
      requires Holds(w)
      modifies this`entries
      ensures entries == old(entries) - {u}
      ensures Holds(Step(w, Invalidate(u, at)))
    {
      entries := entries - {u};
    }
  }

  // ---- What is served was true not long ago ----

  /** The status was the table's when it was read. */
  ghost predicate Held(log: seq<Version>, r: Read) {
    && r.version < |log| && r.user in log[r.version].users && log[r.version].users[r.user] == r.status
    && log[r.version].at <= r.readAt
    && (r.version + 1 < |log| ==> r.readAt <= log[r.version + 1].at)
  }

  ghost predicate Ordered(w: World) {
    && (forall i, j :: 0 <= i < j < |w.log| ==> w.log[i].at <= w.log[j].at)
    && (forall i :: 0 <= i < |w.log| ==> w.log[i].at <= w.now)
  }

  ghost predicate Sound(w: World) {
    && Ordered(w)
    && (forall l :: l in w.pending ==> Held(w.log, w.pending[l]) && w.pending[l].readAt <= w.now)
    && (forall u :: u in w.entries ==>
          && Held(w.log, w.entries[u].read) && w.entries[u].read.user == u
          && w.entries[u].read.readAt <= w.entries[u].fetchedAt <= w.now)
  }

  /** Time does not run backwards. */
  ghost predicate Timely(w: World, es: seq<Event>)
    decreases |es|
  {
    es != [] ==> w.now <= es[0].at && Timely(Step(w, es[0]), es[1..])
  }

  lemma HeldStays(log: seq<Version>, v: Version, r: Read)
    requires Held(log, r) && r.readAt <= v.at
    ensures Held(log + [v], r)
  {
  }

  lemma UpdateKeeps(w: World, e: Event)
    requires Sound(w) && w.now <= e.at && e.Update?
    ensures Sound(Step(w, e))
  {
    var v := Version(e.at, Latest(w)[e.user := e.status]);
    forall l | l in w.pending
      ensures Held(w.log + [v], w.pending[l])
    {
      HeldStays(w.log, v, w.pending[l]);
    }
    forall u | u in w.entries
      ensures Held(w.log + [v], w.entries[u].read)
    {
      HeldStays(w.log, v, w.entries[u].read);
    }
  }

  lemma StoreKeeps(w: World, e: Event)
    requires Sound(w) && w.now <= e.at && e.Store?
    ensures Sound(Step(w, e))
  {
  }

  lemma OtherStepKeeps(w: World, e: Event)
    requires Sound(w) && w.now <= e.at && (e.Fetch? || e.Hit? || e.Invalidate?)
    ensures Sound(Step(w, e))
  {
  }

  lemma SoundStep(w: World, e: Event)
    requires Sound(w) && w.now <= e.at
    ensures Sound(Step(w, e))
  {
    if e.Update? {
      UpdateKeeps(w, e);
    } else if e.Store? {
      StoreKeeps(w, e);
    } else {
      OtherStepKeeps(w, e);
    }
  }

  lemma {:induction false} SoundThroughout(w: World, es: seq<Event>)
    requires Sound(w) && Timely(w, es)
    ensures Sound(Run(w, es))
    decreases |es|
  {
    if es != [] {
      SoundStep(w, es[0]);
      SoundThroughout(Step(w, es[0]), es[1..]);
    }
  }

  /** When what a step returns was stored. */
  function StoredAt(w: World, e: Event): int {
    if e.Hit? && e.user in w.entries then w.entries[e.user].fetchedAt else e.at
  }

  /** How long the fetch of the served status took, from reading the table to storing. */
  function OwnDelay(w: World, e: Event, r: Read): int { StoredAt(w, e) - r.readAt }

  /** Under any interleaving, whatever other fetches take, a status returned was the
      table's at an instant no older than the time to live plus the delay of its own
      fetch. */
  lemma StalenessIsBounded(w: World, es: seq<Event>, e: Event, ttl: int)
    requires Sound(w) && Timely(w, es + [e]) && Served(Run(w, es), e, ttl).Some?
    ensures var r := Served(Run(w, es), e, ttl).value;
      var own := OwnDelay(Run(w, es), e, r);
      && Held(Run(w, es).log, r) && r.readAt <= e.at && own >= 0
      && (if e.Hit? then e.at - r.readAt < ttl + own else e.at - r.readAt == own)
  {
    TimelySplits(w, es, e);
    SoundThroughout(w, es);
  }

  lemma {:induction false} TimelySplits(w: World, es: seq<Event>, e: Event)
    requires Timely(w, es + [e])
    ensures Timely(w, es) && Run(w, es).now <= e.at
    decreases |es|
  {
    if es == [] {
      assert es + [e] == [e];
    } else {
      assert (es + [e])[1..] == es[1..] + [e];
      TimelySplits(Step(w, es[0]), es[1..], e);
    }
  }

  // ---- Revocation ----

  /** Every update of `u` in the run leaves the account blocked or deleted or the token
      issued no later than its tokens were invalidated. */
  predicate KeepsRefusing(es: seq<Event>, u: UserId, issuedAt: Option<int>) {
    forall i :: 0 <= i < |es| && es[i].Update? && es[i].user == u ==>
      || es[i].status.blocked || es[i].status.deleted
      || (es[i].status.invalidatedAt.Some? && issuedAt.Some? && issuedAt.value <= es[i].status.invalidatedAt.value)
  }

  /** From version `k` on the table refuses the token. */
  ghost predicate RefusedSince(log: seq<Version>, k: nat, u: UserId, issuedAt: Option<int>) {
    k < |log| && forall i :: k <= i < |log| ==>
      && u in log[i].users
      && (|| log[i].users[u].blocked || log[i].users[u].deleted
          || (log[i].users[u].invalidatedAt.Some? && issuedAt.Some? && issuedAt.value <= log[i].users[u].invalidatedAt.value))
  }

  lemma {:induction false} RefusedThroughout(w: World, es: seq<Event>, k: nat, u: UserId, issuedAt: Option<int>)
    requires RefusedSince(w.log, k, u, issuedAt) && KeepsRefusing(es, u, issuedAt)
    ensures RefusedSince(Run(w, es).log, k, u, issuedAt)
    ensures w.log <= Run(w, es).log
    decreases |es|
  {
    if es != [] {
      assert KeepsRefusing(es[1..], u, issuedAt) by {
        assert forall i :: 0 <= i < |es[1..]| ==> es[1..][i] == es[i + 1];
      }
      assert RefusedSince(Step(w, es[0]).log, k, u, issuedAt);
      RefusedThroughout(Step(w, es[0]), es[1..], k, u, issuedAt);
    }
  }

  /** The user's side of a served read. */
  predicate ServesUser(r: Option<Read>, u: UserId) {
    r.Some? && r.value.user == u
  }

  /** Once the table refuses a token, and as long as no later update takes that
      back, the middleware refuses it from the time to live plus the delay of the
      served fetch onwards, with no invalidation at all. */
  lemma RevocationTakesHold(w: World, revoke: Event, es: seq<Event>, e: Event, issuedAt: Option<int>, ttl: int)
    requires Sound(w) && Timely(w, [revoke] + (es + [e]))
    requires revoke.Update? && KeepsRefusing([revoke] + es, revoke.user, issuedAt)
    requires ServesUser(Served(Run(Step(w, revoke), es), e, ttl), revoke.user)
    requires ttl > 0 && e.at >= revoke.at + ttl + OwnDelay(Run(Step(w, revoke), es), e, Served(Run(Step(w, revoke), es), e, ttl).value)
    ensures var status := Served(Run(Step(w, revoke), es), e, ttl).value.status;
      || status.blocked || status.deleted
      || (status.invalidatedAt.Some? && issuedAt.Some? && issuedAt.value <= status.invalidatedAt.value)
  {
    var w1 := Step(w, revoke);
    assert ([revoke] + es)[0] == revoke;
    assert forall i :: 0 <= i < |es| ==> es[i] == ([revoke] + es)[i + 1];
    assert ([revoke] + (es + [e]))[1..] == es + [e];
    SoundStep(w, revoke);
    RefusedThroughout(w1, es, |w.log|, revoke.user, issuedAt);
    StalenessIsBounded(w1, es, e, ttl);
    TimelySplits(w1, es, e);
    SoundThroughout(w1, es);
    var log := Run(w1, es).log;
    assert w1.log[|w.log|].at == revoke.at && log[|w.log|] == w1.log[|w.log|];
  }

  // ---- Invalidation ----

  /** Nothing about `u` that was read before version `k` is cached or on its way
      into the cache. */
  ghost predicate Clean(w: World, u: UserId, k: nat) {
    && (u in w.entries ==> w.entries[u].read.version >= k)
    && forall l :: l in w.pending && w.pending[l].user == u ==> w.pending[l].version >= k
  }

  ghost predicate Keyed(w: World) {
    forall u :: u in w.entries ==> w.entries[u].read.user == u
  }

  /** A fetch of `u` that read the table before version `k` has not been stored. */
  ghost predicate StaleFetch(w: World, u: UserId, k: nat, l: LookupId) {
    l in w.pending && w.pending[l].user == u && w.pending[l].version < k
  }

  lemma {:induction false} CleanThroughout(w: World, es: seq<Event>, u: UserId, k: nat)
    requires Keyed(w) && Clean(w, u, k) && k < |w.log|
    ensures Keyed(Run(w, es)) && Clean(Run(w, es), u, k) && k < |Run(w, es).log|
    decreases |es|
  {
    if es != [] {
      CleanThroughout(Step(w, es[0]), es[1..], u, k);
    }
  }

  /** From here on, nothing older than version `k` is ever served for `u`. */
  ghost predicate NeverServesOlder(w: World, u: UserId, k: nat, ttl: int) {
    forall es, e :: ServesUser(Served(Run(w, es), e, ttl), u) ==> Served(Run(w, es), e, ttl).value.version >= k
  }

  lemma CleanServesNew(w: World, es: seq<Event>, e: Event, u: UserId, k: nat, ttl: int)
    requires Keyed(w) && Clean(w, u, k) && k < |w.log|
    ensures ServesUser(Served(Run(w, es), e, ttl), u) ==> Served(Run(w, es), e, ttl).value.version >= k
  {
    CleanThroughout(w, es, u, k);
  }

  /** Invalidating works at once exactly when no fetch begun before the update is
      still waiting to be stored: then everything served afterwards is at least as
      new as the update; otherwise a continuation serves an older status. */
  lemma InvalidationIsImmediateIff(w: World, u: UserId, k: nat, at: int, ttl: int)
    requires Keyed(w) && k < |w.log|
    ensures NeverServesOlder(Step(w, Invalidate(u, at)), u, k, ttl) <==> forall l :: !StaleFetch(w, u, k, l)
  {
    var w1 := Step(w, Invalidate(u, at));
    if forall l :: !StaleFetch(w, u, k, l) {
      forall l | l in w1.pending && w1.pending[l].user == u
        ensures w1.pending[l].version >= k
      {
        assert !StaleFetch(w, u, k, l);
      }
      assert Clean(w1, u, k);
      forall es, e
        ensures ServesUser(Served(Run(w1, es), e, ttl), u) ==> Served(Run(w1, es), e, ttl).value.version >= k
      {
        CleanServesNew(w1, es, e, u, k, ttl);
      }
    } else {
      var l :| StaleFetch(w, u, k, l);
      assert Run(w1, []) == w1;
      assert ServesUser(Served(Run(w1, []), Store(l, at), ttl), u);
    }
  }

  /** Once the table refuses a token from version `k` on and no fetch begun before
      that is still unstored, invalidating makes the middleware refuse it at once:
      every status served for the user from then on refuses the token, as long as no
      later update takes that back. */
  lemma InvalidationRefusesAtOnce(w: World, u: UserId, k: nat, at: int, es: seq<Event>, e: Event, issuedAt: Option<int>, ttl: int)
    requires Sound(w) && RefusedSince(w.log, k, u, issuedAt) && forall l :: !StaleFetch(w, u, k, l)
    requires Timely(w, [Invalidate(u, at)] + (es + [e])) && KeepsRefusing(es, u, issuedAt)
    requires ServesUser(Served(Run(Step(w, Invalidate(u, at)), es), e, ttl), u)
    ensures var status := Served(Run(Step(w, Invalidate(u, at)), es), e, ttl).value.status;
      || status.blocked || status.deleted
      || (status.invalidatedAt.Some? && issuedAt.Some? && issuedAt.value <= status.invalidatedAt.value)
  {
    var w1 := Step(w, Invalidate(u, at));
    assert ([Invalidate(u, at)] + (es + [e]))[1..] == es + [e];
    SoundStep(w, Invalidate(u, at));
    InvalidationIsImmediateIff(w, u, k, at, ttl);
    assert ServesUser(Served(Run(w1, es), e, ttl), u);
    RefusedThroughout(w1, es, k, u, issuedAt);
    StalenessIsBounded(w1, es, e, ttl);
  }

  /** ... and the stale status is then cached, for a full time to live. */
  lemma StaleStoreIsServedFor(w: World, u: UserId, k: nat, l: LookupId, at: int, later: int, ttl: int)
    requires StaleFetch(w, u, k, l) && at <= later < at + ttl
    ensures var w1 := Run(w, [Invalidate(u, at), Store(l, at)]);
      ServesUser(Served(w1, Hit(u, later), ttl), u) && Served(w1, Hit(u, later), ttl).value.version < k
  {
    var es := [Invalidate(u, at), Store(l, at)];
    assert es[1..] == [Store(l, at)] && es[1..][1..] == [];
    var w1 := Step(w, es[0]);
    assert Run(Step(w1, es[1]), []) == Step(w1, es[1]);
    assert Run(w1, [es[1]]) == Step(w1, es[1]);
  }

  // ---- The middleware ----

  datatype TokenType = FullToken | PendingMFA | MFASetup | EmailUnverified

  datatype Claims = Claims(user: UserId, tokenType: Option<TokenType>, issuedAt: Option<int>)

  datatype Verdict = Admitted | WrongType | TokenRevoked

  /** A token without a type is an old full one. */
  function TypeOf(c: Claims): TokenType {
    if c.tokenType.Some? then c.tokenType.value else FullToken
  }

  /** AuthenticateWithTypes on a valid token: the type must be on the list, and where
      a cache is configured the status must not refuse it; a status that cannot be
      had refuses it. */
  method Authenticate(c: Claims, allowed: seq<TokenType>, hasCache: bool, status: Option<UserStatus>) returns (verdict: Verdict)
    ensures verdict == Admitted <==>
      && (if c.tokenType.Some? then c.tokenType.value in allowed else FullToken in allowed)
      && (hasCache ==>
            && status.Some? && !status.value.blocked && !status.value.deleted
            && (status.value.invalidatedAt.Some? && c.issuedAt.Some? ==> status.value.invalidatedAt.value < c.issuedAt.value))
    ensures verdict == WrongType <==> !(if c.tokenType.Some? then c.tokenType.value in allowed else FullToken in allowed)
  {
    var ok := false;
    var i := 0;
    while i < |allowed|
      invariant 0 <= i <= |allowed|
      invariant ok <==> TypeOf(c) in allowed[..i]
    {
      if allowed[i] == TypeOf(c) {
        ok := true;
        break;
      }
      i := i + 1;
    }
    if !ok {
      return WrongType;
    }
    if hasCache && (status.None? || Revoked(status.value, c.issuedAt)) {
      return TokenRevoked;
    }
    return Admitted;
  }
}
