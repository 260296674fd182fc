// Creating regions: parents made on demand, the check of type against parent, and
// the shape every hierarchy made this way has (internal/handlers/regions.go).
module RegionCreation {
  import opened Prelude
  import opened Regions

  datatype Atlas = Atlas(next: RegionId, regions: RegionTable)

  datatype Request = Request(kind: RegionType, name: string, parent: Option<RegionId>, stateName: string, countyName: string)

  datatype Located = Located(county: string, state: string)

  /** The answers of the map service: what lies at the request's coordinates, and
      the names on the state and county boundaries asked for, where it has them. */
  datatype Lookup = Lookup(located: Option<Located>, stateBoundary: Option<string>, countyBoundary: Option<string>)

  /** A region to use as parent or as result, or none when something failed; regions
      inserted on the way stay. */
  datatype Made = Made(atlas: Atlas, id: Option<RegionId>)

  datatype Placed = Placed(atlas: Atlas, ok: bool, parent: Option<RegionId>)

  function Matches(rs: RegionTable, name: string, kind: RegionType): set<RegionId> {
    set x | x in rs && rs[x].name == name && rs[x].kind == kind
  }

  /** GetByNameAndType reads the first row with the name and type, whatever its parent. */
  function Find(rs: RegionTable, name: string, kind: RegionType): Option<RegionId> {
    if Matches(rs, name, kind) == {} then None else Some(Least(Matches(rs, name, kind)))
  }

  /** Inserting a row; its parent must exist. */
  function Insert(a: Atlas, region: Region): Made {
    if region.parent.Some? && region.parent.value !in a.regions then Made(a, None)
    else Made(Atlas(a.next + 1, a.regions[a.next := region]), Some(a.next))
  }

  function GetOrCreateState(a: Atlas, name: string, boundary: Option<string>): Made {
    if Find(a.regions, name, State).Some? then Made(a, Find(a.regions, name, State))
    else if boundary.None? then Made(a, None)
    else Insert(a, Region(boundary.value, State, None))
  }

  function GetOrCreateCounty(a: Atlas, name: string, boundary: Option<string>, state: RegionId): Made {
    if Find(a.regions, name, County).Some? then Made(a, Find(a.regions, name, County))
    else if boundary.None? then Made(a, None)
    else Insert(a, Region(boundary.value, County, Some(state)))
  }

  function Refused(a: Atlas): Placed { Placed(a, false, None) }

  function PlacedUnder(m: Made): Placed { Placed(m.atlas, m.id.Some?, m.id) }

  function PlaceCounty(a: Atlas, req: Request, look: Lookup): Placed {
    if req.stateName == "" && (look.located.None? || look.located.value.state == "") then Refused(a)
    else PlacedUnder(GetOrCreateState(a, if req.stateName != "" then req.stateName else look.located.value.state, look.stateBoundary))
  }

  function PlaceCity(a: Atlas, req: Request, look: Lookup): Placed {
    if (req.stateName == "" || req.countyName == "") && look.located.None? then Refused(a)
    else
      var stateName := if req.stateName != "" then req.stateName else look.located.value.state;
      var countyName := if req.countyName != "" then req.countyName else look.located.value.county;
      var state := GetOrCreateState(a, stateName, look.stateBoundary);
      if state.id.None? then Refused(state.atlas)
      else PlacedUnder(GetOrCreateCounty(state.atlas, countyName, look.countyBoundary, state.id.value))
  }

  /** autoCreateParentRegions, run only when the request names no parent. */
  function AutoParents(a: Atlas, req: Request, look: Lookup): Placed {
    match req.kind
    case State => Placed(a, true, None)
    case County => PlaceCounty(a, req, look)
    case City => PlaceCity(a, req, look)
    case Locality => Placed(a, true, None)
    case Neighborhood => Refused(a)
    case CityBlock => Refused(a)
  }

  function ParentKind(kind: RegionType): Option<RegionType> {
    match kind
    case County => Some(State)
    case City => Some(County)
    case Neighborhood => Some(City)
    case CityBlock => Some(Neighborhood)
    case _ => None
  }

  /** validateTypeParentHierarchy; a locality is not checked. */
  predicate ValidParent(rs: RegionTable, kind: RegionType, parent: Option<RegionId>) {
    if kind.State? then parent.None?
    else if kind.Locality? then true
    else parent.Some? && parent.value in rs && Some(rs[parent.value].kind) == ParentKind(kind)
  }

  function Create(a: Atlas, req: Request, look: Lookup): Made {
    var placed := if req.parent.Some? then Placed(a, true, req.parent) else AutoParents(a, req, look);
    if !placed.ok || !ValidParent(placed.atlas.regions, req.kind, placed.parent) then Made(placed.atlas, None)
    else Insert(placed.atlas, Region(req.name, req.kind, placed.parent))
  }

  function Rename(a: Atlas, x: RegionId, name: string): Atlas {
    if x in a.regions then a.(regions := a.regions[x := a.regions[x].(name := name)]) else a
  }

  /** The same as statements on the table. */
  class RegionHandler {
    var next: RegionId
    var regions: RegionTable

    function Contents(): Atlas
      reads this
    {
      Atlas(next, regions)
    }

    constructor ()
      ensures Contents() == Atlas(0, map[])
    {
      next, regions := 0, map[];
    }

    method InsertRegion(region: Region) returns (id: Option<RegionId>)
      modifies this
      ensures Made(Contents(), id) == Insert(old(Contents()), region)
    {
      if region.parent.Some? && region.parent.value !in regions {
        return None;
      }
      id := Some(next);
      regions := regions[next := region];
      next := next + 1;
    }

    method GetOrCreateStateRegion(name: string, boundary: Option<string>) returns (id: Option<RegionId>)
      modifies this
      ensures Made(Contents(), id) == GetOrCreateState(old(Contents()), name, boundary)
    {
      id := Find(regions, name, State);
      if id.Some? || boundary.None? {
        return;
      }
      id := InsertRegion(Region(boundary.value, State, None));
    }

    method GetOrCreateCountyRegion(name: string, boundary: Option<string>, state: RegionId) returns (id: Option<RegionId>)
      modifies this
      ensures Made(Contents(), id) == GetOrCreateCounty(old(Contents()), name, boundary, state)
    {
      id := Find(regions, name, County);
      if id.Some? || boundary.None? {
        return;
      }
      id := InsertRegion(Region(boundary.value, County, Some(state)));
    }

    method AutoCreateParentRegions(req: Request, look: Lookup) returns (ok: bool, parent: Option<RegionId>)
      modifies this
      ensures Placed(Contents(), ok, parent) == AutoParents(old(Contents()), req, look)
    {
      ok, parent := false, None;
      match req.kind
      case State => ok := true;
      case Locality => ok := true;
      case Neighborhood =>
      case CityBlock =>
      case County =>
        var stateName := req.stateName;
        if stateName == "" {
          if look.located.None? || look.located.value.state == "" {
            return;
          }
          stateName := look.located.value.state;
        }
        parent := GetOrCreateStateRegion(stateName, look.stateBoundary);
        ok := parent.Some?;
      case City =>
        var stateName, countyName := req.stateName, req.countyName;
        if stateName == "" || countyName == "" {
          if look.located.None? {
            return;
          }
          if countyName == "" {
            countyName := look.located.value.county;
          }
          if stateName == "" {
            stateName := look.located.value.state;
          }
        }
        var state := GetOrCreateStateRegion(stateName, look.stateBoundary);
        if state.None? {
          return;
        }
        parent := GetOrCreateCountyRegion(countyName, look.countyBoundary, state.value);
        ok := parent.Some?;
    }

    method CreateRegion(req: Request, look: Lookup) returns (id: Option<RegionId>)
      modifies this
      ensures Made(Contents(), id) == Create(old(Contents()), req, look)
    {
      var parent := req.parent;
      if parent.None? {
        var ok;
        ok, parent := AutoCreateParentRegions(req, look);
        if !ok {
          return None;
        }
      }
      if !ValidParent(regions, req.kind, parent) {
        return None;
      }
      id := InsertRegion(Region(req.name, req.kind, parent));
    }
  }

  // ---- When a region is created ----

  /** Under a parent the request names, a region is created exactly when that parent
      exists and is of the type above its own; a locality under any, a state under
      none. It gets the name, type and parent asked for, and nothing else is made. */
  lemma CreateUnderIff(a: Atlas, req: Request, look: Lookup)
    requires req.parent.Some?
    ensures Create(a, req, look).id.Some? <==>
      && req.parent.value in a.regions
      && match req.kind
         case State => false
         case County => a.regions[req.parent.value].kind == State
         case City => a.regions[req.parent.value].kind == County
         case Locality => true
         case Neighborhood => a.regions[req.parent.value].kind == City
         case CityBlock => a.regions[req.parent.value].kind == Neighborhood
    ensures Create(a, req, look) ==
      if Create(a, req, look).id.None? then Made(a, None)
      else Made(Atlas(a.next + 1, a.regions[a.next := Region(req.name, req.kind, req.parent)]), Some(a.next))
  {
  }

  /** Without a named parent a state and a locality are created at the top, a
      neighborhood and a block are refused. */
  lemma CreateAloneIff(a: Atlas, req: Request, look: Lookup)
    requires req.parent.None? && !req.kind.County? && !req.kind.City?
    ensures Create(a, req, look) ==
      if req.kind == State || req.kind == Locality
      then Made(Atlas(a.next + 1, a.regions[a.next := Region(req.name, req.kind, None)]), Some(a.next))
      else Made(a, None)
  {
  }

  /** The first region of that name and type, if there is one. */
  ghost predicate FirstNamed(rs: RegionTable, name: string, kind: RegionType, id: Option<RegionId>) {
    match id
    case None => forall x :: x in rs ==> !(rs[x].name == name && rs[x].kind == kind)
    case Some(x) => x in rs && rs[x].name == name && rs[x].kind == kind && forall y :: y in rs && rs[y].name == name && rs[y].kind == kind ==> x <= y
  }

  lemma FindIsFirst(rs: RegionTable, name: string, kind: RegionType)
    ensures FirstNamed(rs, name, kind, Find(rs, name, kind))
  {
    var found := Matches(rs, name, kind);
    forall x | x in rs && rs[x].name == name && rs[x].kind == kind
      ensures x in found
    {
    }
  }

  /** A county without a named parent goes under the state named, or else under the
      one at its coordinates: the first state of that name, or a new one under the
      name on the boundary. It is refused exactly when no state is named or found
      there, or the state is new and has no boundary. */
  lemma CountyIff(a: Atlas, req: Request, look: Lookup)
    requires Sound(a) && req.kind.County? && req.parent.None?
    ensures var named := req.stateName != "" || (look.located.Some? && look.located.value.state != "");
      Create(a, req, look).id.Some? <==>
        named && (look.stateBoundary.Some?
                  || exists x :: x in a.regions && a.regions[x].kind == State
                       && a.regions[x].name == (if req.stateName != "" then req.stateName else look.located.value.state))
    ensures Create(a, req, look).id.Some? ==>
      var m, name := Create(a, req, look), if req.stateName != "" then req.stateName else look.located.value.state;
      && m.id.value in m.atlas.regions && m.atlas.regions[m.id.value].name == req.name && m.atlas.regions[m.id.value].kind == County
      && var parent := m.atlas.regions[m.id.value].parent;
         && parent.Some? && parent.value in m.atlas.regions
         && (if exists x :: x in a.regions && a.regions[x].kind == State && a.regions[x].name == name
             then FirstNamed(a.regions, name, State, parent)
             else look.stateBoundary.Some? && m.atlas.regions[parent.value] == Region(look.stateBoundary.value, State, None))
  {
    if req.stateName != "" || (look.located.Some? && look.located.value.state != "") {
      var name := if req.stateName != "" then req.stateName else look.located.value.state;
      FindIsFirst(a.regions, name, State);
    }
  }

  // ---- What creation keeps ----

  /** Every region sits where its type belongs; a locality anywhere that exists. */
  ghost predicate WellPlaced(rs: RegionTable) {
    forall x :: x in rs ==> ValidParent(rs, rs[x].kind, rs[x].parent) && (rs[x].parent.Some? ==> rs[x].parent.value in rs)
  }

  ghost predicate Sound(a: Atlas) {
    Forest(a.regions) && WellPlaced(a.regions) && forall x :: x in a.regions ==> x < a.next
  }

  /** Regions present before are there after, unchanged. */
  ghost predicate Extends(a: Atlas, b: Atlas) {
    forall x :: x in a.regions ==> x in b.regions && b.regions[x] == a.regions[x]
  }

  lemma InsertKeepsForest(a: Atlas, region: Region)
    requires Sound(a) && Insert(a, region).id.Some?
    ensures Forest(Insert(a, region).atlas.regions)
  {
    var rank :| Ranked(a.regions, rank);
    var above := if region.parent.Some? then rank[region.parent.value] + 1 else 0;
    assert Ranked(a.regions[a.next := region], rank[a.next := above]);
  }

  lemma InsertKeeps(a: Atlas, region: Region)
    requires Sound(a) && ValidParent(a.regions, region.kind, region.parent)
    ensures Sound(Insert(a, region).atlas) && Extends(a, Insert(a, region).atlas)
  {
    if Insert(a, region).id.Some? {
      InsertKeepsForest(a, region);
    }
  }

  lemma FindFinds(rs: RegionTable, name: string, kind: RegionType)
    ensures Find(rs, name, kind).Some? ==>
      Find(rs, name, kind).value in rs && rs[Find(rs, name, kind).value].kind == kind && rs[Find(rs, name, kind).value].name == name
  {
    if Matches(rs, name, kind) != {} {
      assert Least(Matches(rs, name, kind)) in Matches(rs, name, kind);
    }
  }

  lemma StateKeeps(a: Atlas, name: string, boundary: Option<string>)
    requires Sound(a)
    ensures var m := GetOrCreateState(a, name, boundary);
      Sound(m.atlas) && Extends(a, m.atlas)
      && (m.id.Some? ==> m.id.value in m.atlas.regions && m.atlas.regions[m.id.value].kind == State)
  {
    FindFinds(a.regions, name, State);
    if boundary.Some? {
      InsertKeeps(a, Region(boundary.value, State, None));
    }
  }

  lemma CountyKeeps(a: Atlas, name: string, boundary: Option<string>, state: RegionId)
    requires Sound(a) && state in a.regions && a.regions[state].kind == State
    ensures var m := GetOrCreateCounty(a, name, boundary, state);
      Sound(m.atlas) && Extends(a, m.atlas)
      && (m.id.Some? ==> m.id.value in m.atlas.regions && m.atlas.regions[m.id.value].kind == County)
  {
    FindFinds(a.regions, name, County);
    if boundary.Some? {
      InsertKeeps(a, Region(boundary.value, County, Some(state)));
    }
  }

  lemma AutoParentsKeep(a: Atlas, req: Request, look: Lookup)
    requires Sound(a)
    ensures Sound(AutoParents(a, req, look).atlas) && Extends(a, AutoParents(a, req, look).atlas)
  {
    match req.kind
    case County =>
      if req.stateName != "" || (look.located.Some? && look.located.value.state != "") {
        StateKeeps(a, if req.stateName != "" then req.stateName else look.located.value.state, look.stateBoundary);
      }
    case City =>
      if look.located.Some? || (req.stateName != "" && req.countyName != "") {
        var state := GetOrCreateState(a, if req.stateName != "" then req.stateName else look.located.value.state, look.stateBoundary);
        StateKeeps(a, if req.stateName != "" then req.stateName else look.located.value.state, look.stateBoundary);
        if state.id.Some? {
          CountyKeeps(state.atlas, if req.countyName != "" then req.countyName else look.located.value.county,
                      look.countyBoundary, state.id.value);
        }
      }
    case _ =>
  }

  lemma CreateKeeps(a: Atlas, req: Request, look: Lookup)
    requires Sound(a)
    ensures Sound(Create(a, req, look).atlas) && Extends(a, Create(a, req, look).atlas)
  {
    AutoParentsKeep(a, req, look);
    var placed := if req.parent.Some? then Placed(a, true, req.parent) else AutoParents(a, req, look);
    if placed.ok && ValidParent(placed.atlas.regions, req.kind, placed.parent) {
      InsertKeeps(placed.atlas, Region(req.name, req.kind, placed.parent));
    }
  }

  lemma RenameKeeps(a: Atlas, x: RegionId, name: string)
    requires Sound(a)
    ensures Sound(Rename(a, x, name))
  {
    if x in a.regions {
      var rs, rs' := a.regions, Rename(a, x, name).regions;
      assert forall y :: y in rs' ==> y in rs && rs'[y].parent == rs[y].parent && rs'[y].kind == rs[y].kind;
      var rank :| Ranked(rs, rank);
      assert Ranked(rs', rank);
    }
  }

  datatype Event = CreateRegion(req: Request, look: Lookup) | RenameRegion(region: RegionId, name: string)

  function Step(a: Atlas, e: Event): Atlas {
    match e
    case CreateRegion(req, look) => Create(a, req, look).atlas
    case RenameRegion(x, name) => Rename(a, x, name)
  }

  function Run(a: Atlas, es: seq<Event>): Atlas
    decreases |es|
  {
    if es == [] then a else Run(Step(a, es[0]), es[1..])
  }

  /** Whatever regions are created and renamed, in whatever order and with whatever
      answers from the map service, the hierarchy is a forest and every region is
      under a parent of the type its own type asks for. */
  lemma {:induction false} SoundThroughout(a: Atlas, es: seq<Event>)
    requires Sound(a)
    ensures Sound(Run(a, es))
    decreases |es|
  {
    if es != [] {
      match es[0] {
        case CreateRegion(req, look) => CreateKeeps(a, req, look);
        case RenameRegion(x, name) => RenameKeeps(a, x, name);
      }
      SoundThroughout(Step(a, es[0]), es[1..]);
    }
  }

  lemma EmptyIsSound()
    ensures Sound(Atlas(0, map[]))
  {
    assert Ranked(map[], map[]);
  }

  /** So every hierarchy made from nothing is. */
  lemma ReachableIsSound(es: seq<Event>)
    ensures Sound(Run(Atlas(0, map[]), es))
  {
    EmptyIsSound();
    SoundThroughout(Atlas(0, map[]), es);
  }

  /** How many steps a type is below its state. */
  function Level(kind: RegionType): nat
    requires !kind.Locality?
  {
    match kind
    case State => 0
    case County => 1
    case City => 2
    case Neighborhood => 3
    case CityBlock => 4
  }

  /** Every region but a locality has a parent chain of the length its type fixes,
      and the chain ends in a state, which has nothing above it. */
  lemma {:induction false} ChainEndsInState(rs: RegionTable, x: RegionId)
    requires WellPlaced(rs) && x in rs && !rs[x].kind.Locality?
    ensures var top := Ancestor(rs, x, Level(rs[x].kind));
      top.Some? && top.value in rs && rs[top.value].kind.State? && rs[top.value].parent.None?
    ensures Ancestor(rs, x, Level(rs[x].kind) + 1).None?
    decreases Level(rs[x].kind)
  {
    if !rs[x].kind.State? {
      ChainEndsInState(rs, rs[x].parent.value);
    }
  }

  // ---- Counties are looked up by name alone ----

  /** The state and the county a city is created for: named in the request, or else
      found at its coordinates. */
  function StateAsked(req: Request, look: Lookup): string
    requires req.stateName != "" || look.located.Some?
  {
    if req.stateName != "" then req.stateName else look.located.value.state
  }

  function CountyAsked(req: Request, look: Lookup): string
    requires req.countyName != "" || look.located.Some?
  {
    if req.countyName != "" then req.countyName else look.located.value.county
  }

  ghost predicate Exists(rs: RegionTable, name: string, kind: RegionType) {
    exists x :: x in rs && rs[x].name == name && rs[x].kind == kind
  }

  /** A city without a named parent is created exactly when its county and state are
      named or lie at its coordinates and each of the two is there or has a boundary
      to be made from. */
  lemma CityIff(a: Atlas, req: Request, look: Lookup)
    requires Sound(a) && req.kind.City? && req.parent.None?
    ensures Create(a, req, look).id.Some? <==>
      && (look.located.Some? || (req.stateName != "" && req.countyName != ""))
      && (look.stateBoundary.Some? || Exists(a.regions, if req.stateName != "" then req.stateName else look.located.value.state, State))
      && (look.countyBoundary.Some? || Exists(a.regions, if req.countyName != "" then req.countyName else look.located.value.county, County))
    ensures Create(a, req, look).id.Some? ==>
      var m := Create(a, req, look);
      m.id.value in m.atlas.regions && m.atlas.regions[m.id.value].name == req.name && m.atlas.regions[m.id.value].kind == City
  {
    if look.located.Some? || (req.stateName != "" && req.countyName != "") {
      CityPlacedIff(a, req, look, if req.stateName != "" then req.stateName else look.located.value.state,
                    if req.countyName != "" then req.countyName else look.located.value.county);
    }
  }

  lemma StateMadeIff(a: Atlas, name: string, boundary: Option<string>)
    ensures GetOrCreateState(a, name, boundary).id.Some? <==> boundary.Some? || Exists(a.regions, name, State)
  {
    FindIsFirst(a.regions, name, State);
  }

  lemma CountyMadeIff(a: Atlas, name: string, boundary: Option<string>, state: RegionId)
    requires state in a.regions
    ensures GetOrCreateCounty(a, name, boundary, state).id.Some? <==> boundary.Some? || Exists(a.regions, name, County)
  {
    FindIsFirst(a.regions, name, County);
  }

  lemma SameCounties(a: Atlas, name: string, boundary: Option<string>, county: string)
    requires Sound(a)
    ensures Exists(GetOrCreateState(a, name, boundary).atlas.regions, county, County) <==> Exists(a.regions, county, County)
  {
    NewStateIsNoCounty(a, name, boundary, county);
    FindIsFirst(a.regions, county, County);
    FindIsFirst(GetOrCreateState(a, name, boundary).atlas.regions, county, County);
  }

  lemma CityPlacedIff(a: Atlas, req: Request, look: Lookup, stateName: string, countyName: string)
    requires Sound(a) && req.kind.City? && req.parent.None? && (look.located.Some? || (req.stateName != "" && req.countyName != ""))
    requires stateName == (if req.stateName != "" then req.stateName else look.located.value.state)
    requires countyName == (if req.countyName != "" then req.countyName else look.located.value.county)
    ensures Create(a, req, look).id.Some? <==>
      && (look.stateBoundary.Some? || Exists(a.regions, stateName, State))
      && (look.countyBoundary.Some? || Exists(a.regions, countyName, County))
    ensures Create(a, req, look).id.Some? ==>
      var m := Create(a, req, look);
      m.id.value in m.atlas.regions && m.atlas.regions[m.id.value].name == req.name && m.atlas.regions[m.id.value].kind == City
  {
    var state := GetOrCreateState(a, stateName, look.stateBoundary);
    StateMadeIff(a, stateName, look.stateBoundary);
    StateKeeps(a, stateName, look.stateBoundary);
    if state.id.Some? {
      SameCounties(a, stateName, look.stateBoundary, countyName);
      CountyMadeIff(state.atlas, countyName, look.countyBoundary, state.id.value);
      CountyKeeps(state.atlas, countyName, look.countyBoundary, state.id.value);
    }
  }

  /** A city created without a parent ends up in the state it is created for exactly
      when the first county of its county's name, if there is one already, lies in
      that state. */
  lemma CityLandsInStateIff(a: Atlas, req: Request, look: Lookup)
    requires Sound(a) && req.kind.City? && req.parent.None?
    requires Create(a, req, look).id.Some?
    ensures look.located.Some? || (req.stateName != "" && req.countyName != "")
    ensures var m := Create(a, req, look);
      var state := GetOrCreateState(a, StateAsked(req, look), look.stateBoundary).id;
      var county := Find(a.regions, CountyAsked(req, look), County);
      state.Some? && (Ancestor(m.atlas.regions, m.id.value, 2) == state
        <==> county.None? || (county.value in a.regions && a.regions[county.value].parent == state))
  {
    var stateName, countyName := StateAsked(req, look), CountyAsked(req, look);
    var state := GetOrCreateState(a, stateName, look.stateBoundary);
    StateKeeps(a, stateName, look.stateBoundary);
    var county := GetOrCreateCounty(state.atlas, countyName, look.countyBoundary, state.id.value);
    CountyKeeps(state.atlas, countyName, look.countyBoundary, state.id.value);
    NewStateIsNoCounty(a, stateName, look.stateBoundary, countyName);
    FindFinds(a.regions, countyName, County);
    var m := Create(a, req, look);
    var c := county.id.value;
    assert m.atlas.regions[m.id.value].parent == Some(c);
    assert m.atlas.regions[c] == county.atlas.regions[c];
    var p := county.atlas.regions[c].parent.value;
    assert p in m.atlas.regions;
    assert Ancestor(m.atlas.regions, p, 0) == Some(p);
    assert Ancestor(m.atlas.regions, c, 1) == Some(p);
    assert Ancestor(m.atlas.regions, m.id.value, 2) == Some(p);
  }

  lemma NewStateIsNoCounty(a: Atlas, name: string, boundary: Option<string>, county: string)
    requires Sound(a)
    ensures Find(GetOrCreateState(a, name, boundary).atlas.regions, county, County) == Find(a.regions, county, County)
  {
    assert Matches(GetOrCreateState(a, name, boundary).atlas.regions, county, County) == Matches(a.regions, county, County);
  }

  /** Two states with a county of the same name: the city asked for in the second
      is placed in the first. */
  lemma CityCanLandInAnotherState()
    ensures var a := Run(Atlas(0, map[]), [CreateRegion(Request(County, "Orange", None, "Florida", ""), Lookup(None, Some("Florida"), None))]);
      var m := Create(a, Request(City, "Irvine", None, "California", "Orange"), Lookup(None, Some("California"), Some("Orange")));
      m.id.Some? && Ancestor(m.atlas.regions, m.id.value, 2) == Some(0)
      && 0 in m.atlas.regions && m.atlas.regions[0] == Region("Florida", State, None)
  {
    var empty := Atlas(0, map[]);
    var req1, look1 := Request(County, "Orange", None, "Florida", ""), Lookup(None, Some("Florida"), None);
    assert Matches(empty.regions, "Florida", State) == {};
    var a := Create(empty, req1, look1).atlas;
    assert a == Atlas(2, map[0 := Region("Florida", State, None), 1 := Region("Orange", County, Some(0))]);
    assert Run(empty, [CreateRegion(req1, look1)]) == a by {
      assert [CreateRegion(req1, look1)][1..] == [];
      assert Run(a, []) == a;
    }
    var req2, look2 := Request(City, "Irvine", None, "California", "Orange"), Lookup(None, Some("California"), Some("Orange"));
    assert Matches(a.regions, "California", State) == {} by {
      assert "California"[0] != "Florida"[0];
    }
    var state := GetOrCreateState(a, "California", Some("California"));
    assert state == Made(Atlas(3, a.regions[2 := Region("California", State, None)]), Some(2));
    assert Matches(state.atlas.regions, "Orange", County) == {1};
    assert Least({1}) == 1;
    var m := Create(a, req2, look2);
    assert m == Made(Atlas(4, state.atlas.regions[3 := Region("Irvine", City, Some(1))]), Some(3));
    assert Ancestor(m.atlas.regions, 0, 0) == Some(0);
    assert Ancestor(m.atlas.regions, 1, 1) == Some(0);
    assert Ancestor(m.atlas.regions, 3, 2) == Some(0);
  }
}
