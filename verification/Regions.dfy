// The region hierarchy and the recursive queries over it: upward closures from a
// user's rows, downward closures from a region, and the proof that they describe
// one relation (internal/database/regions.go, verification.go).
module Regions {
  import opened Prelude

  type RegionId = nat

  datatype RegionType = State | County | City | Locality | Neighborhood | CityBlock

  datatype Region = Region(name: string, kind: RegionType, parent: Option<RegionId>)

  type RegionTable = map<RegionId, Region>

  datatype Membership = Membership(isAdmin: bool, verified: bool)

  type MembershipTable = map<(UserId, RegionId), Membership>

  datatype User = User(superuser: bool, blocked: bool)

  /** The k-th region on the way up from `x`, itself at 0. */
  function Ancestor(rs: RegionTable, x: RegionId, k: nat): Option<RegionId>
    decreases k
  {
    if x !in rs then None
    else if k == 0 then Some(x)
    else if rs[x].parent.None? then None
    else Ancestor(rs, rs[x].parent.value, k - 1)
  }

  /** The foreign key on parents holds and no region is above itself: some ranking
      puts every region strictly below its parent. */
  ghost predicate Ranked(rs: RegionTable, rank: map<RegionId, nat>) {
    && rank.Keys == rs.Keys
    && forall x :: x in rs && rs[x].parent.Some? ==> rs[x].parent.value in rs && rank[rs[x].parent.value] < rank[x]
  }

  ghost predicate Forest(rs: RegionTable) {
    exists rank :: Ranked(rs, rank)
  }

  ghost function Depth(rs: RegionTable, x: RegionId): nat
    requires Forest(rs)
  {
    var rank :| Ranked(rs, rank);
    if x in rank then rank[x] else 0
  }

  lemma ParentIsShallower(rs: RegionTable, x: RegionId)
    requires Forest(rs) && x in rs && rs[x].parent.Some?
    ensures rs[x].parent.value in rs && Depth(rs, rs[x].parent.value) < Depth(rs, x)
  {
  }

  lemma {:induction false} AncestorIsShallower(rs: RegionTable, x: RegionId, k: nat)
    requires Forest(rs) && Ancestor(rs, x, k).Some?
    ensures Depth(rs, Ancestor(rs, x, k).value) + k <= Depth(rs, x)
    decreases k
  {
    if k > 0 {
      ParentIsShallower(rs, x);
      AncestorIsShallower(rs, rs[x].parent.value, k - 1);
    }
  }

  lemma {:induction false} AncestorsAdd(rs: RegionTable, x: RegionId, j: nat, k: nat)
    requires Ancestor(rs, x, j).Some?
    ensures Ancestor(rs, x, j + k) == Ancestor(rs, Ancestor(rs, x, j).value, k)
    decreases j
  {
    if j > 0 {
      AncestorsAdd(rs, rs[x].parent.value, j - 1, k);
    }
  }

  // ---- Downward queries: generation after generation ----

  function Children(rs: RegionTable, level: set<RegionId>): set<RegionId> {
    set x | x in rs && rs[x].parent.Some? && rs[x].parent.value in level
  }

  /** The rows the recursive query adds in its k-th round. */
  function Generation(rs: RegionTable, r: RegionId, k: nat): set<RegionId>
    decreases k
  {
    if k == 0 then (if r in rs then {r} else {}) else Children(rs, Generation(rs, r, k - 1))
  }

  /** The query ends when a round adds nothing. */
  ghost predicate Ends(rs: RegionTable, r: RegionId) {
    exists k :: Generation(rs, r, k) == {}
  }

  lemma {:induction false} GenerationsAreAncestry(rs: RegionTable, r: RegionId, x: RegionId, k: nat)
    ensures x in Generation(rs, r, k) <==> Ancestor(rs, x, k) == Some(r)
    decreases k
  {
    if k > 0 && x in rs && rs[x].parent.Some? {
      GenerationsAreAncestry(rs, r, rs[x].parent.value, k - 1);
    }
  }

  /** Each region turns up in at most one round, so UNION ALL lists it once. */
  lemma GenerationsAreDisjoint(rs: RegionTable, r: RegionId, j: nat, k: nat)
    requires Forest(rs) && j < k
    ensures Generation(rs, r, j) !! Generation(rs, r, k)
  {
    forall x | x in Generation(rs, r, j)
      ensures x !in Generation(rs, r, k)
    {
      GenerationsAreAncestry(rs, r, x, j);
      GenerationsAreAncestry(rs, r, x, k);
      if Ancestor(rs, x, k) == Some(r) {
        AncestorsAdd(rs, x, j, k - j);
        AncestorIsShallower(rs, r, k - j);
      }
    }
  }

  lemma {:induction false} RanksAreBounded(rank: map<RegionId, nat>, keys: set<RegionId>) returns (bound: nat)
    requires keys <= rank.Keys
    ensures forall x :: x in keys ==> rank[x] <= bound
  {
    if keys == {} {
      bound := 0;
    } else {
      var x :| x in keys;
      bound := RanksAreBounded(rank, keys - {x});
      bound := if rank[x] > bound then rank[x] else bound;
    }
  }

  lemma EndsInForest(rs: RegionTable, r: RegionId)
    requires Forest(rs)
    ensures Ends(rs, r)
  {
    var rank :| Ranked(rs, rank);
    var bound := RanksAreBounded(rank, rs.Keys);
    if Generation(rs, r, bound + 1) != {} {
      var x :| x in Generation(rs, r, bound + 1);
      GenerationsAreAncestry(rs, r, x, bound + 1);
      RankFalls(rs, rank, x, bound + 1);
    }
  }

  lemma {:induction false} RankFalls(rs: RegionTable, rank: map<RegionId, nat>, x: RegionId, k: nat)
    requires Ranked(rs, rank) && Ancestor(rs, x, k).Some?
    ensures x in rank && k <= rank[x]
    decreases k
  {
    if k > 0 {
      RankFalls(rs, rank, rs[x].parent.value, k - 1);
    }
  }

  /** The first round that adds nothing. */
  ghost function Height(rs: RegionTable, r: RegionId): nat
    requires Ends(rs, r)
  {
    var rounds := set k | 0 <= k <= AnEmptyRound(rs, r) && Generation(rs, r, k) == {};
    assert AnEmptyRound(rs, r) in rounds;
    Least(rounds)
  }

  ghost function AnEmptyRound(rs: RegionTable, r: RegionId): (k: nat)
    requires Ends(rs, r)
    ensures Generation(rs, r, k) == {}
  {
    var k: nat :| Generation(rs, r, k) == {};
    k
  }

  lemma HeightIsLeast(rs: RegionTable, r: RegionId, k: nat)
    requires Ends(rs, r)
    ensures Generation(rs, r, Height(rs, r)) == {}
    ensures Generation(rs, r, k) == {} ==> Height(rs, r) <= k
  {
    var rounds := set k | 0 <= k <= AnEmptyRound(rs, r) && Generation(rs, r, k) == {};
    assert AnEmptyRound(rs, r) in rounds;
    assert IsLeast(rounds, Height(rs, r));
    if Generation(rs, r, k) == {} && k <= AnEmptyRound(rs, r) {
      assert k in rounds;
    }
  }

  lemma ChildIsLower(rs: RegionTable, x: RegionId)
    requires x in rs && rs[x].parent.Some? && rs[x].parent.value in rs
    requires Ends(rs, x) && Ends(rs, rs[x].parent.value)
    ensures Height(rs, x) < Height(rs, rs[x].parent.value)
  {
    var p := rs[x].parent.value;
    var h := Height(rs, p);
    HeightIsLeast(rs, p, 0);
    assert Generation(rs, p, 0) == {p};
    assert h > 0;
    if Generation(rs, x, h - 1) != {} {
      var y :| y in Generation(rs, x, h - 1);
      GenerationsAreAncestry(rs, x, y, h - 1);
      AncestorsAdd(rs, y, h - 1, 1);
      assert Ancestor(rs, x, 1) == Some(p);
      GenerationsAreAncestry(rs, p, y, h);
    }
    HeightIsLeast(rs, x, h - 1);
  }

  /** The downward queries all end exactly when the hierarchy is a forest: their
      termination is acyclicity, nothing less. */
  lemma QueriesEndIffForest(rs: RegionTable)
    requires forall x :: x in rs && rs[x].parent.Some? ==> rs[x].parent.value in rs
    ensures (forall r :: r in rs ==> Ends(rs, r)) <==> Forest(rs)
  {
    if Forest(rs) {
      forall r | r in rs
        ensures Ends(rs, r)
      {
        EndsInForest(rs, r);
      }
    } else if forall r :: r in rs ==> Ends(rs, r) {
      var heights: map<RegionId, nat> := map x | x in rs :: Height(rs, x);
      var bound := RanksAreBounded(heights, rs.Keys);
      var rank: map<RegionId, nat> := map x | x in rs :: (bound - heights[x]) as nat;
      forall x | x in rs && rs[x].parent.Some?
        ensures rank[rs[x].parent.value] < rank[x]
      {
        ChildIsLower(rs, x);
      }
      assert Ranked(rs, rank);
    }
  }

  /** What a downward query returns: a region and everything below it. */
  ghost function Tree(rs: RegionTable, r: RegionId): set<RegionId> {
    set x | x in rs && exists k :: x in Generation(rs, r, k)
  }

  // ---- Upward queries: the closure a UNION computes ----

  function Parents(rs: RegionTable, s: set<RegionId>): set<RegionId> {
    set x | x in s && x in rs && rs[x].parent.Some? && rs[x].parent.value in rs :: rs[x].parent.value
  }

  /** Rounds of UNION go on until a round adds no new row; this ends on any table,
      cyclic or not. */
  function Up(rs: RegionTable, s: set<RegionId>): (all: set<RegionId>)
    requires s <= rs.Keys
    ensures s <= all <= rs.Keys
    decreases rs.Keys - s
  {
    if Parents(rs, s) <= s then s else Up(rs, s + Parents(rs, s))
  }

  ghost predicate Above(rs: RegionTable, r: RegionId, s: set<RegionId>) {
    exists x: RegionId, k: nat :: x in s && Ancestor(rs, x, k) == Some(r)
  }

  lemma {:induction false} ClosedUnderParents(rs: RegionTable, s: set<RegionId>, x: RegionId, k: nat)
    requires Parents(rs, s) <= s <= rs.Keys && x in s && Ancestor(rs, x, k).Some?
    ensures Ancestor(rs, x, k).value in s
    decreases k
  {
    if k > 0 {
      assert rs[x].parent.value in rs;
      assert rs[x].parent.value in Parents(rs, s);
      ClosedUnderParents(rs, s, rs[x].parent.value, k - 1);
    }
  }

  lemma {:induction false} UpIsAbove(rs: RegionTable, s: set<RegionId>, r: RegionId)
    requires s <= rs.Keys
    ensures r in Up(rs, s) <==> Above(rs, r, s)
    decreases rs.Keys - s
  {
    if Parents(rs, s) <= s {
      if r in s {
        assert Ancestor(rs, r, 0) == Some(r);
      }
      if Above(rs, r, s) {
        var x: RegionId, k: nat :| x in s && Ancestor(rs, x, k) == Some(r);
        ClosedUnderParents(rs, s, x, k);
      }
    } else {
      var more := s + Parents(rs, s);
      UpIsAbove(rs, more, r);
      if Above(rs, r, more) {
        var x: RegionId, k: nat :| x in more && Ancestor(rs, x, k) == Some(r);
        if x !in s {
          var y :| y in s && y in rs && rs[y].parent == Some(x);
          assert Ancestor(rs, y, k + 1) == Some(r);
        }
      }
      if Above(rs, r, s) {
        var x: RegionId, k: nat :| x in s && Ancestor(rs, x, k) == Some(r);
        assert x in more;
      }
    }
  }

  /** One relation, two queries: `r` is reached upward from `s` exactly when the
      downward query from `r` meets `s`. */
  lemma UpMeetsDown(rs: RegionTable, s: set<RegionId>, r: RegionId)
    requires s <= rs.Keys
    ensures r in Up(rs, s) <==> s * Tree(rs, r) != {}
  {
    UpIsAbove(rs, s, r);
    if Above(rs, r, s) {
      var x: RegionId, k: nat :| x in s && Ancestor(rs, x, k) == Some(r);
      GenerationsAreAncestry(rs, r, x, k);
      assert x in s * Tree(rs, r);
    }
    if s * Tree(rs, r) != {} {
      var x :| x in s * Tree(rs, r);
      var k: nat :| x in Generation(rs, r, k);
      GenerationsAreAncestry(rs, r, x, k);
    }
  }

  // ---- The queries ----

  function AdminBase(rs: RegionTable, rows: MembershipTable, u: UserId): set<RegionId> {
    set x | x in rs && (u, x) in rows && rows[(u, x)].isAdmin
  }

  function VerifiedBase(rs: RegionTable, rows: MembershipTable, u: UserId): set<RegionId> {
    set x | x in rs && (u, x) in rows && rows[(u, x)].verified
  }

  function ListAdminRegions(rs: RegionTable, rows: MembershipTable, u: UserId): set<RegionId> {
    Up(rs, AdminBase(rs, rows, u))
  }

  predicate IsUserAdmin(rs: RegionTable, rows: MembershipTable, u: UserId, r: RegionId) {
    r in Up(rs, AdminBase(rs, rows, u))
  }

  predicate IsUserVerifiedInRegion(rs: RegionTable, rows: MembershipTable, u: UserId, r: RegionId) {
    r in Up(rs, VerifiedBase(rs, rows, u))
  }

  /** The users GetAdminCount counts. */
  ghost function AdminsCounted(rs: RegionTable, rows: MembershipTable, r: RegionId): set<UserId> {
    set row | row in rows && rows[row].isAdmin && row.1 in Tree(rs, r) :: row.0
  }

  ghost function GetAdminCount(rs: RegionTable, rows: MembershipTable, r: RegionId): nat {
    |AdminsCounted(rs, rows, r)|
  }

  ghost function GetUsersInRegion(rs: RegionTable, rows: MembershipTable, users: map<UserId, User>, r: RegionId): set<UserId> {
    set row | row in rows && rows[row].verified && row.1 in Tree(rs, r)
           && row.0 in users && !users[row.0].blocked && !users[row.0].superuser :: row.0
  }

  /** An admin row of the user, `k` steps below `r` ... */
  predicate AdminRowBelow(rs: RegionTable, rows: MembershipTable, u: UserId, r: RegionId, x: RegionId, k: nat) {
    (u, x) in rows && rows[(u, x)].isAdmin && Ancestor(rs, x, k) == Some(r)
  }

  /** ... and a verified one. */
  predicate VerifiedRowBelow(rs: RegionTable, rows: MembershipTable, u: UserId, r: RegionId, x: RegionId, k: nat) {
    (u, x) in rows && rows[(u, x)].verified && Ancestor(rs, x, k) == Some(r)
  }

  /** Spelled out: a user is an admin of a region through an admin row on it or below. */
  lemma AdminIff(rs: RegionTable, rows: MembershipTable, u: UserId, r: RegionId)
    ensures IsUserAdmin(rs, rows, u, r) <==> exists x: RegionId, k: nat :: AdminRowBelow(rs, rows, u, r, x, k)
  {
    var base := AdminBase(rs, rows, u);
    UpIsAbove(rs, base, r);
    if Above(rs, r, base) {
      var x: RegionId, k: nat :| x in base && Ancestor(rs, x, k) == Some(r);
      assert AdminRowBelow(rs, rows, u, r, x, k);
    }
    if x: RegionId, k: nat :| AdminRowBelow(rs, rows, u, r, x, k) {
      assert x in base;
    }
  }

  lemma VerifiedIff(rs: RegionTable, rows: MembershipTable, u: UserId, r: RegionId)
    ensures IsUserVerifiedInRegion(rs, rows, u, r) <==> exists x: RegionId, k: nat :: VerifiedRowBelow(rs, rows, u, r, x, k)
  {
    var base := VerifiedBase(rs, rows, u);
    UpIsAbove(rs, base, r);
    if Above(rs, r, base) {
      var x: RegionId, k: nat :| x in base && Ancestor(rs, x, k) == Some(r);
      assert VerifiedRowBelow(rs, rows, u, r, x, k);
    }
    if x: RegionId, k: nat :| VerifiedRowBelow(rs, rows, u, r, x, k) {
      assert x in base;
    }
  }

  lemma CountedIffAdmin(rs: RegionTable, rows: MembershipTable, r: RegionId, u: UserId)
    ensures u in AdminsCounted(rs, rows, r) <==> IsUserAdmin(rs, rows, u, r)
  {
    var base := AdminBase(rs, rows, u);
    UpMeetsDown(rs, base, r);
    if u in AdminsCounted(rs, rows, r) {
      var row :| row in rows && rows[row].isAdmin && row.1 in Tree(rs, r) && row.0 == u;
      assert row == (u, row.1);
      assert row.1 in base * Tree(rs, r);
    }
    if base * Tree(rs, r) != {} {
      var x :| x in base * Tree(rs, r);
      assert (u, x) in rows && rows[(u, x)].isAdmin;
    }
  }

  /** The admin count of a region, taken downward, is the number of users the
      upward check accepts, and the regions listed for a user are those it
      accepts that user for. */
  lemma AdminQueriesAgree(rs: RegionTable, rows: MembershipTable, r: RegionId, admins: set<UserId>)
    requires forall u :: u in admins <==> IsUserAdmin(rs, rows, u, r)
    ensures GetAdminCount(rs, rows, r) == |admins|
    ensures forall u :: r in ListAdminRegions(rs, rows, u) <==> u in AdminsCounted(rs, rows, r)
  {
    forall u
      ensures u in AdminsCounted(rs, rows, r) <==> IsUserAdmin(rs, rows, u, r)
    {
      CountedIffAdmin(rs, rows, r, u);
    }
    assert AdminsCounted(rs, rows, r) == admins;
  }

  /** The users listed for a region are exactly the unblocked non-superusers whom
      the upward check finds verified there. */
  lemma UsersListedIffVerified(rs: RegionTable, rows: MembershipTable, users: map<UserId, User>, r: RegionId, u: UserId)
    ensures u in GetUsersInRegion(rs, rows, users, r) <==>
      u in users && !users[u].blocked && !users[u].superuser && IsUserVerifiedInRegion(rs, rows, u, r)
  {
    var base := VerifiedBase(rs, rows, u);
    UpMeetsDown(rs, base, r);
    if u in GetUsersInRegion(rs, rows, users, r) {
      var row :| row in rows && rows[row].verified && row.1 in Tree(rs, r) && row.0 == u;
      assert row == (u, row.1);
      assert row.1 in base * Tree(rs, r);
    }
    if base * Tree(rs, r) != {} {
      var x :| x in base * Tree(rs, r);
      assert (u, x) in rows && rows[(u, x)].verified;
    }
  }
}
