// Pending and verified membership along a region's ancestor chain, and vouches
// counted over descendants (internal/database/regions.go, verification.go).
module RegionMembership {
  import opened Prelude
  import opened Regions

  /** GetAncestorRegions: parent, grandparent and so on up to the root. */
  function Chain(rs: RegionTable, r: RegionId): seq<RegionId>
    requires Forest(rs)
    decreases Depth(rs, r)
  {
    if r !in rs || rs[r].parent.None? then []
    else
      ParentIsShallower(rs, r);
      [rs[r].parent.value] + Chain(rs, rs[r].parent.value)
  }

  /** `x` is `k` steps above `r`, at least one. */
  predicate StepsAbove(rs: RegionTable, r: RegionId, x: RegionId, k: nat) {
    k > 0 && Ancestor(rs, r, k) == Some(x)
  }

  lemma {:induction false} ChainListsAncestors(rs: RegionTable, r: RegionId, x: RegionId)
    requires Forest(rs)
    ensures x in Chain(rs, r) <==> exists k: nat :: StepsAbove(rs, r, x, k)
    decreases Depth(rs, r)
  {
    if r in rs && rs[r].parent.Some? {
      var p := rs[r].parent.value;
      ParentIsShallower(rs, r);
      ChainListsAncestors(rs, p, x);
      if x == p {
        assert StepsAbove(rs, r, x, 1);
      } else if x in Chain(rs, p) {
        var k: nat :| StepsAbove(rs, p, x, k);
        assert StepsAbove(rs, r, x, k + 1);
      }
      if k: nat :| StepsAbove(rs, r, x, k) {
        if k > 1 {
          assert StepsAbove(rs, p, x, k - 1);
        } else {
          assert x == p;
        }
      }
    }
  }

  const PENDING := Membership(false, false)

  /** Pending rows for `u` have been added for the regions that had none. */
  ghost predicate PendingAdded(before: MembershipTable, after: MembershipTable, u: UserId, xs: seq<RegionId>) {
    && after.Keys == before.Keys + (set x | x in xs :: (u, x))
    && forall row :: row in after ==> after[row] == if row in before then before[row] else Membership(false, false)
  }

  /** The rows after the UPDATE over an explicit list of regions. */
  function Upgraded(rows: MembershipTable, u: UserId, xs: seq<RegionId>, isAdmin: bool): MembershipTable {
    map row | row in rows ::
      if row.0 == u && row.1 in xs && !rows[row].verified then Membership(isAdmin, true) else rows[row]
  }

  class RegionRepository {
    var regions: RegionTable
    var rows: MembershipTable

    constructor ()
      ensures regions == map[] && rows == map[]
    {
      regions, rows := map[], map[];
    }

    method AddUserToRegionPending(u: UserId, x: RegionId) returns (added: bool)
      modifies this`rows
      ensures added == ((u, x) !in old(rows))
      ensures rows == if added then old(rows)[(u, x) := Membership(false, false)] else old(rows)
    {
      added := (u, x) !in rows;
      if added {
        rows := rows[(u, x) := PENDING];
      }
    }

    /** A membership that exists already is skipped. */
    method AddUserToAncestorRegionsPending(u: UserId, r: RegionId)
      requires Forest(regions)
      modifies this`rows
      ensures PendingAdded(old(rows), rows, u, Chain(regions, r))
    {
      var ancestors := Chain(regions, r);
      var i := 0;
      while i < |ancestors|
        invariant 0 <= i <= |ancestors|
        invariant PendingAdded(old(rows), rows, u, ancestors[..i])
      {
        ghost var soFar := rows;
        var added := AddUserToRegionPending(u, ancestors[i]);
        OneMorePending(old(rows), soFar, rows, u, ancestors, i);
        i := i + 1;
      }
      assert ancestors[..i] == ancestors;
    }

    /** The list of regions is put together first, then updated in one statement. */
    method UpgradeUserRegionAndAncestorsToVerified(u: UserId, r: RegionId, isAdmin: bool)
      requires Forest(regions)
      modifies this`rows
      ensures rows == Upgraded(old(rows), u, [r] + Chain(regions, r), isAdmin)
      ensures rows.Keys == old(rows).Keys
      ensures forall x :: (u, x) in rows && x in [r] + Chain(regions, r) ==>
        rows[(u, x)].verified && rows[(u, x)].isAdmin == if old(rows)[(u, x)].verified then old(rows)[(u, x)].isAdmin else isAdmin
      ensures forall row :: row in rows && (row.0 != u || row.1 !in [r] + Chain(regions, r)) ==> rows[row] == old(rows)[row]
    {
      var ancestors := Chain(regions, r);
      var ids := [r];
      var i := 0;
      while i < |ancestors|
        invariant 0 <= i <= |ancestors|
        invariant ids == [r] + ancestors[..i]
      {
        ids := ids + [ancestors[i]];
        i := i + 1;
      }
      assert ancestors[..i] == ancestors;
      rows := map row | row in rows ::
        if row.0 == u && row.1 in ids && !rows[row].verified then Membership(isAdmin, true) else rows[row];
    }
  }

  lemma OneMorePending(before: MembershipTable, soFar: MembershipTable, after: MembershipTable, u: UserId, xs: seq<RegionId>, i: nat)
    requires i < |xs| && PendingAdded(before, soFar, u, xs[..i])
    requires after == if (u, xs[i]) in soFar then soFar else soFar[(u, xs[i]) := PENDING]
    ensures PendingAdded(before, after, u, xs[..i + 1])
  {
    assert xs[..i + 1] == xs[..i] + [xs[i]];
    assert (set x | x in xs[..i + 1] :: (u, x)) == (set x | x in xs[..i] :: (u, x)) + {(u, xs[i])};
  }

  lemma ChainAdded(before: MembershipTable, between: MembershipTable, after: MembershipTable, u: UserId, r: RegionId, chain: seq<RegionId>)
    requires between == (if (u, r) in before then before else before[(u, r) := PENDING]) && PendingAdded(between, after, u, chain)
    ensures PendingAdded(before, after, u, [r] + chain)
  {
    assert (set x | x in [r] + chain :: (u, x)) == {(u, r)} + (set x | x in chain :: (u, x));
  }

  /** A pending row for a region (`between`), pending rows for its ancestors
      (`pending`) and then the upgrade, each as its method leaves the table, make the
      user verified on the whole chain. Rows off the chain, rows of other users and
      rows verified before are as they were. */
  lemma WholeChainVerified(rs: RegionTable, before: MembershipTable, between: MembershipTable, pending: MembershipTable,
                           u: UserId, r: RegionId, isAdmin: bool)
    requires Forest(rs)
    requires between == if (u, r) in before then before else before[(u, r) := PENDING]
    requires PendingAdded(between, pending, u, Chain(rs, r))
    ensures var after := Upgraded(pending, u, [r] + Chain(rs, r), isAdmin);
      && (forall x :: x in [r] + Chain(rs, r) ==> (u, x) in after && after[(u, x)].verified)
      && (forall row :: row in before && (row.0 != u || row.1 !in [r] + Chain(rs, r) || before[row].verified)
            ==> row in after && after[row] == before[row])
      && (forall row :: row in after && row !in before ==> row.0 == u && row.1 in [r] + Chain(rs, r))
  {
    ChainAdded(before, between, pending, u, r, Chain(rs, r));
    var xs := [r] + Chain(rs, r);
    var added := set x | x in xs :: (u, x);
    forall x | x in xs
      ensures (u, x) in pending
    {
      assert (u, x) in added;
    }
  }

  /** An upgrade makes admins only when it is asked to: with `isAdmin` false nobody is
      an admin of any region who was not before, and with it true the user is one of
      every region on the chain it had an unverified row for. */
  lemma UpgradeMakesAdminsIff(rs: RegionTable, rows: MembershipTable, u: UserId, xs: seq<RegionId>, isAdmin: bool, v: UserId, x: RegionId)
    ensures !isAdmin && IsUserAdmin(rs, Upgraded(rows, u, xs, isAdmin), v, x) ==> IsUserAdmin(rs, rows, v, x)
    ensures isAdmin && x in rs && x in xs && (u, x) in rows && !rows[(u, x)].verified ==>
      IsUserAdmin(rs, Upgraded(rows, u, xs, isAdmin), u, x)
  {
    var after := Upgraded(rows, u, xs, isAdmin);
    AdminIff(rs, rows, v, x);
    AdminIff(rs, after, v, x);
    AdminIff(rs, after, u, x);
    if !isAdmin && IsUserAdmin(rs, after, v, x) {
      var y: RegionId, k: nat :| AdminRowBelow(rs, after, v, x, y, k);
      assert AdminRowBelow(rs, rows, v, x, y, k);
    }
    if isAdmin && x in rs && x in xs && (u, x) in rows && !rows[(u, x)].verified {
      assert AdminRowBelow(rs, after, u, x, x, 0);
    }
  }

  lemma OtherUsersBase(rs: RegionTable, rows: MembershipTable, u: UserId, xs: seq<RegionId>, isAdmin: bool, v: UserId)
    requires v != u
    ensures VerifiedBase(rs, Upgraded(rows, u, xs, isAdmin), v) == VerifiedBase(rs, rows, v)
  {
  }

  /** Upgrading the chain and upgrading only its lowest region answer every
      verification question alike, for every user and region. */
  lemma ChainUpgradeAnswersAsLowest(rs: RegionTable, rows: MembershipTable, u: UserId, r: RegionId, isAdmin: bool, v: UserId, x: RegionId)
    requires Forest(rs) && r in rs && (u, r) in rows
    ensures IsUserVerifiedInRegion(rs, Upgraded(rows, u, [r] + Chain(rs, r), isAdmin), v, x)
       <==> IsUserVerifiedInRegion(rs, Upgraded(rows, u, [r], isAdmin), v, x)
  {
    var chain := [r] + Chain(rs, r);
    if v != u {
      OtherUsersBase(rs, rows, u, chain, isAdmin, v);
      OtherUsersBase(rs, rows, u, [r], isAdmin, v);
    } else {
      var whole := VerifiedBase(rs, Upgraded(rows, u, chain, isAdmin), u);
      var lowest := VerifiedBase(rs, Upgraded(rows, u, [r], isAdmin), u);
      assert r in lowest && lowest <= whole;
      UpIsAbove(rs, whole, x);
      UpIsAbove(rs, lowest, x);
      if Above(rs, x, whole) {
        var y: RegionId, k: nat :| y in whole && Ancestor(rs, y, k) == Some(x);
        if y !in lowest {
          assert y in chain;
          ChainListsAncestors(rs, r, y);
          var j: nat :| StepsAbove(rs, r, y, j);
          AncestorsAdd(rs, r, j, k);
          assert Ancestor(rs, r, j + k) == Some(x);
        }
      }
      if Above(rs, x, lowest) {
        var y: RegionId, k: nat :| y in lowest && Ancestor(rs, y, k) == Some(x);
        assert y in whole;
      }
    }
  }

  // ---- Vouches ----

  /** One row per (voucher, vouched), with the region it was given in, if any. */
  type VouchTable = map<(UserId, UserId), Option<RegionId>>

  ghost function VouchesIn(vs: VouchTable, u: UserId, regions: set<RegionId>): set<(UserId, UserId)> {
    set v | v in vs && v.1 == u && vs[v].Some? && vs[v].value in regions
  }

  ghost function CountVouchesWithDescendants(rs: RegionTable, vs: VouchTable, u: UserId, r: RegionId): nat {
    |VouchesIn(vs, u, Tree(rs, r))|
  }

  ghost function VouchersWithDescendants(rs: RegionTable, vs: VouchTable, u: UserId, r: RegionId): set<UserId> {
    set v | v in VouchesIn(vs, u, Tree(rs, r)) :: v.0
  }

  lemma {:induction false} FirstsAreAsMany(s: set<(UserId, UserId)>, u: UserId)
    requires forall v :: v in s ==> v.1 == u
    ensures |set v | v in s :: v.0| == |s|
  {
    if s != {} {
      var v :| v in s;
      FirstsAreAsMany(s - {v}, u);
      var rest := set w | w in s - {v} :: w.0;
      assert (set w | w in s :: w.0) == rest + {v.0};
      assert forall w :: w in s - {v} ==> w == (w.0, u) && w.0 != v.0;
    }
  }

  /** Counting vouches counts distinct vouchers. */
  lemma CountIsVouchers(rs: RegionTable, vs: VouchTable, u: UserId, r: RegionId)
    ensures CountVouchesWithDescendants(rs, vs, u, r) == |VouchersWithDescendants(rs, vs, u, r)|
  {
    FirstsAreAsMany(VouchesIn(vs, u, Tree(rs, r)), u);
  }

  ghost function SumOfCounts(rs: RegionTable, vs: VouchTable, u: UserId, cs: set<RegionId>): nat {
    if cs == {} then 0
    else CountVouchesWithDescendants(rs, vs, u, Least(cs)) + SumOfCounts(rs, vs, u, cs - {Least(cs)})
  }

  ghost function Trees(rs: RegionTable, cs: set<RegionId>): set<RegionId> {
    set x | x in rs && exists c :: c in cs && x in Tree(rs, c)
  }

  lemma InTree(rs: RegionTable, r: RegionId, x: RegionId)
    ensures x in Tree(rs, r) <==> exists k: nat :: Ancestor(rs, x, k) == Some(r)
  {
    if x in Tree(rs, r) {
      var k: nat :| x in Generation(rs, r, k);
      GenerationsAreAncestry(rs, r, x, k);
    }
    if k: nat :| Ancestor(rs, x, k) == Some(r) {
      GenerationsAreAncestry(rs, r, x, k);
    }
  }

  lemma SiblingTreesAreDisjoint(rs: RegionTable, r: RegionId, a: RegionId, b: RegionId)
    requires Forest(rs) && a in Children(rs, {r}) && b in Children(rs, {r}) && a != b
    ensures Tree(rs, a) !! Tree(rs, b)
  {
    forall x | x in Tree(rs, a)
      ensures x !in Tree(rs, b)
    {
      InTree(rs, a, x);
      InTree(rs, b, x);
      if x in Tree(rs, b) {
        var j: nat :| Ancestor(rs, x, j) == Some(a);
        var k: nat :| Ancestor(rs, x, k) == Some(b);
        if j < k {
          SiblingNotAbove(rs, r, x, a, b, j, k);
        } else if k < j {
          SiblingNotAbove(rs, r, x, b, a, k, j);
        }
      }
    }
  }

  lemma SiblingNotAbove(rs: RegionTable, r: RegionId, x: RegionId, a: RegionId, b: RegionId, j: nat, k: nat)
    requires Forest(rs) && a in Children(rs, {r}) && b in Children(rs, {r}) && j < k
    requires Ancestor(rs, x, j) == Some(a)
    ensures Ancestor(rs, x, k) != Some(b)
  {
    AncestorsAdd(rs, x, j, k - j);
    if Ancestor(rs, x, k) == Some(b) {
      assert Ancestor(rs, r, k - j - 1) == Some(b);
      AncestorIsShallower(rs, r, k - j - 1);
      ParentIsShallower(rs, b);
    }
  }

  lemma {:induction false} SumIsOverTrees(rs: RegionTable, vs: VouchTable, u: UserId, r: RegionId, cs: set<RegionId>)
    requires Forest(rs) && cs <= Children(rs, {r})
    ensures SumOfCounts(rs, vs, u, cs) == |VouchesIn(vs, u, Trees(rs, cs))|
  {
    if cs == {} {
      assert VouchesIn(vs, u, Trees(rs, cs)) == {};
    } else {
      var c := Least(cs);
      var rest := cs - {c};
      SumIsOverTrees(rs, vs, u, r, rest);
      forall d | d in rest
        ensures Tree(rs, c) !! Tree(rs, d)
      {
        SiblingTreesAreDisjoint(rs, r, c, d);
      }
      assert Trees(rs, cs) == Tree(rs, c) + Trees(rs, rest);
      VouchesSplit(vs, u, Tree(rs, c), Trees(rs, rest));
    }
  }

  lemma VouchesSplit(vs: VouchTable, u: UserId, a: set<RegionId>, b: set<RegionId>)
    requires a !! b
    ensures |VouchesIn(vs, u, a + b)| == |VouchesIn(vs, u, a)| + |VouchesIn(vs, u, b)|
  {
    assert VouchesIn(vs, u, a + b) == VouchesIn(vs, u, a) + VouchesIn(vs, u, b);
    assert VouchesIn(vs, u, a) !! VouchesIn(vs, u, b);
  }

  lemma TreeSplits(rs: RegionTable, r: RegionId)
    requires Forest(rs) && r in rs
    ensures Tree(rs, r) == {r} + Trees(rs, Children(rs, {r}))
    ensures r !in Trees(rs, Children(rs, {r}))
  {
    var cs := Children(rs, {r});
    forall x | x in rs
      ensures x in Tree(rs, r) <==> x == r || x in Trees(rs, cs)
    {
      InTree(rs, r, x);
      if k: nat :| Ancestor(rs, x, k) == Some(r) {
        if k > 0 {
          BelowAChild(rs, r, x, k);
        } else {
          assert x == r;
        }
      }
      if x in Trees(rs, cs) {
        var c :| c in cs && x in Tree(rs, c);
        InTree(rs, c, x);
        var k: nat :| Ancestor(rs, x, k) == Some(c);
        AncestorsAdd(rs, x, k, 1);
        assert Ancestor(rs, c, 1) == Some(r);
        assert Ancestor(rs, x, k + 1) == Some(r);
      }
      assert Ancestor(rs, r, 0) == Some(r);
    }
    if r in Trees(rs, cs) {
      var c :| c in cs && r in Tree(rs, c);
      InTree(rs, c, r);
      var k: nat :| Ancestor(rs, r, k) == Some(c);
      AncestorIsShallower(rs, r, k);
      ParentIsShallower(rs, c);
    }
  }

  lemma BelowAChild(rs: RegionTable, r: RegionId, x: RegionId, k: nat)
    requires k > 0 && x in rs && Ancestor(rs, x, k) == Some(r)
    ensures x in Trees(rs, Children(rs, {r}))
  {
    AncestorPrefix(rs, x, k - 1, k);
    var c := Ancestor(rs, x, k - 1).value;
    AncestorsAdd(rs, x, k - 1, 1);
    assert Ancestor(rs, c, 1) == Some(r);
    assert c in Children(rs, {r});
    InTree(rs, c, x);
  }

  lemma {:induction false} AncestorPrefix(rs: RegionTable, x: RegionId, j: nat, k: nat)
    requires j <= k && Ancestor(rs, x, k).Some?
    ensures Ancestor(rs, x, j).Some? && Ancestor(rs, x, j).value in rs
    decreases j
  {
    if j > 0 {
      AncestorPrefix(rs, rs[x].parent.value, j - 1, k - 1);
    }
  }

  /** The count at a region is its own vouches plus its children's counts. */
  lemma CountsAdd(rs: RegionTable, vs: VouchTable, u: UserId, r: RegionId)
    requires Forest(rs) && r in rs
    ensures CountVouchesWithDescendants(rs, vs, u, r)
         == |VouchesIn(vs, u, {r})| + SumOfCounts(rs, vs, u, Children(rs, {r}))
  {
    TreeSplits(rs, r);
    SumIsOverTrees(rs, vs, u, r, Children(rs, {r}));
    VouchesSplit(vs, u, {r}, Trees(rs, Children(rs, {r})));
  }

  /** A threshold met at a region is met at every region above it. */
  lemma CountsGrowUpward(rs: RegionTable, vs: VouchTable, u: UserId, x: RegionId, k: nat)
    requires Ancestor(rs, x, k).Some?
    ensures CountVouchesWithDescendants(rs, vs, u, x) <= CountVouchesWithDescendants(rs, vs, u, Ancestor(rs, x, k).value)
  {
    var r := Ancestor(rs, x, k).value;
    forall y | y in Tree(rs, x)
      ensures y in Tree(rs, r)
    {
      InTree(rs, x, y);
      var j: nat :| Ancestor(rs, y, j) == Some(x);
      AncestorsAdd(rs, y, j, k);
      assert Ancestor(rs, y, j + k) == Some(r);
      InTree(rs, r, y);
    }
    SubsetSize(VouchesIn(vs, u, Tree(rs, x)), VouchesIn(vs, u, Tree(rs, r)));
  }
}
