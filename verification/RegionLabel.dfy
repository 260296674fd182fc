// DeriveRegionLabel: from a group's regions up to their states, and the states'
// names in order (internal/database/groups.go:1936-2022).
module RegionLabel {
  import opened Prelude
  import opened Regions
  import opened RegionCreation
  import opened Names

  // ---- The states a group reaches ----

  /** The walk up from one region stops at the first state or at the root. */
  function StateAbove(rs: RegionTable, x: RegionId): Option<string>
    requires Forest(rs)
    decreases Depth(rs, x)
  {
    if x !in rs then None
    else if rs[x].kind.State? then Some(rs[x].name)
    else if rs[x].parent.None? then None
    else
      ParentIsShallower(rs, x);
      StateAbove(rs, rs[x].parent.value)
  }

  function StateNames(rs: RegionTable, gs: seq<RegionId>): set<string>
    requires Forest(rs)
  {
    set x | x in gs && StateAbove(rs, x).Some? :: StateAbove(rs, x).value
  }

  /** The state `s`, `k` steps above `x`, bears the name. */
  ghost predicate ReachesState(rs: RegionTable, x: RegionId, s: RegionId, k: nat, name: string) {
    Ancestor(rs, x, k) == Some(s) && s in rs && rs[s].kind.State? && rs[s].name == name
  }

  lemma {:induction false} WalkFindsTheState(rs: RegionTable, x: RegionId, name: string)
    requires Forest(rs) && WellPlaced(rs)
    ensures StateAbove(rs, x) == Some(name) <==> exists s: RegionId, k: nat :: ReachesState(rs, x, s, k, name)
    decreases Depth(rs, x)
  {
    if x in rs {
      if rs[x].kind.State? {
        if rs[x].name == name {
          assert ReachesState(rs, x, x, 0, name);
        }
      } else if rs[x].parent.Some? {
        var p := rs[x].parent.value;
        ParentIsShallower(rs, x);
        WalkFindsTheState(rs, p, name);
        if StateAbove(rs, p) == Some(name) {
          var s: RegionId, k: nat :| ReachesState(rs, p, s, k, name);
          assert ReachesState(rs, x, s, k + 1, name);
        }
        if s: RegionId, k: nat :| ReachesState(rs, x, s, k, name) {
          assert ReachesState(rs, p, s, k - 1, name);
        }
      }
    }
  }

  /** The names collected are those of the states in the upward closure of the
      group's regions. */
  lemma NamesAreOfStatesReached(rs: RegionTable, gs: seq<RegionId>, name: string)
    requires Forest(rs) && WellPlaced(rs) && forall x :: x in gs ==> x in rs
    ensures name in StateNames(rs, gs) <==>
      exists s :: s in Up(rs, set x | x in gs) && rs[s].kind.State? && rs[s].name == name
  {
    var base := set x | x in gs;
    if name in StateNames(rs, gs) {
      var x :| x in gs && StateAbove(rs, x) == Some(name);
      WalkFindsTheState(rs, x, name);
      var s: RegionId, k: nat :| ReachesState(rs, x, s, k, name);
      UpIsAbove(rs, base, s);
    }
    if s :| s in Up(rs, base) && rs[s].kind.State? && rs[s].name == name {
      UpIsAbove(rs, base, s);
      var x: RegionId, k: nat :| x in base && Ancestor(rs, x, k) == Some(s);
      WalkFindsTheState(rs, x, name);
      assert ReachesState(rs, x, s, k, name);
    }
  }

  function Join(names: seq<string>): string {
    if names == [] then ""
    else if |names| == 1 then names[0]
    else names[0] + ", " + Join(names[1..])
  }

  /** The label a listing of names gives. */
  function Label(names: seq<string>): string {
    if names == [] then "Unknown" else Join(names)
  }

  /** The label written from the left: no name, one name, one name more. */
  lemma {:induction false} LabelReads(names: seq<string>, last: string)
    ensures Label([]) == "Unknown" && Label([last]) == last
    ensures names != [] ==> Label(names + [last]) == Label(names) + ", " + last
  {
    if |names| > 1 {
      var s := names + [last];
      assert s[0] == names[0] && s[1..] == names[1..] + [last];
      LabelReads(names[1..], last);
    } else if |names| == 1 {
      assert (names + [last])[1..] == [last];
    }
  }

  // ---- The method ----

  /** For each region the walk up to its state, then the distinct names sorted and
      joined. The walk ends because the hierarchy is a forest. */
  method DeriveRegionLabel(rs: RegionTable, gs: seq<RegionId>) returns (text: string)
    requires Forest(rs) && forall x :: x in gs ==> x in rs
    ensures text == Label(InOrder(StateNames(rs, gs)))
    ensures (forall x :: x in gs ==> StateAbove(rs, x).None?) ==> text == "Unknown"
  {
    if gs == [] {
      return "Unknown";
    }
    var names: set<string> := {};
    var i := 0;
    while i < |gs|
      invariant 0 <= i <= |gs| && names == StateNames(rs, gs[..i])
    {
      var current := gs[i];
      assert current in gs;
      ghost var found := StateAbove(rs, gs[i]);
      while rs[current].kind != State && rs[current].parent.Some?
        invariant current in rs && StateAbove(rs, current) == found
        decreases Depth(rs, current)
      {
        ParentIsShallower(rs, current);
        current := rs[current].parent.value;
      }
      if rs[current].kind == State {
        names := names + {rs[current].name};
      }
      OneMoreName(rs, gs, i);
      i := i + 1;
    }
    assert gs[..i] == gs;
    if names == {} {
      return "Unknown";
    }
    var a := new string[|names|];
    Spread(names, a);
    Sort(a);
    DistinctSorted(a[..], names);
    SortedListing(a[..], names);
    text := Join(a[..]);
  }

  lemma OneMoreName(rs: RegionTable, gs: seq<RegionId>, i: nat)
    requires Forest(rs) && i < |gs|
    ensures StateNames(rs, gs[..i + 1])
         == StateNames(rs, gs[..i]) + if StateAbove(rs, gs[i]).Some? then {StateAbove(rs, gs[i]).value} else {}
  {
    assert gs[..i + 1] == gs[..i] + [gs[i]];
  }

  /** The names in the arbitrary order a map is ranged over. */
  method Spread(names: set<string>, a: array<string>)
    requires a.Length == |names|
    modifies a
    ensures multiset(a[..]) == multiset(names)
  {
    var rest := names;
    var k := 0;
    while k < a.Length
      invariant 0 <= k <= a.Length && rest <= names && |rest| == a.Length - k
      invariant multiset(a[..k]) == multiset(names - rest)
    {
      var name :| name in rest;
      a[k] := name;
      assert a[..k + 1] == a[..k] + [name];
      assert names - (rest - {name}) == (names - rest) + {name};
      rest := rest - {name};
      k := k + 1;
    }
    assert rest == {};
    assert names - rest == names;
    assert a[..k] == a[..];
  }
}
