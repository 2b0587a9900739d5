/**
 * The evacuation-route part of the city scene: the registry of named
 * locations, the table of navigation paths, and the derivation of the fire
 * anchor, its label and the arrow markers from the current fire state.
 * Everything here is a pure function of its inputs.
 */
module CityScene {

  datatype Option<T> = None | Some(value: T)

  /** A world-space point, the source's `[x, y, z]` number triple. */
  datatype Coord = Coord(x: real, y: real, z: real)

  /** The two arrow colours the scene uses. */
  datatype Color = Yellow | Lime

  /** One directional marker: where it starts, where it points to, its colour. */
  datatype Arrow = Arrow(start: Coord, end: Coord, color: Color)

  /**
   * A navigation path, keyed as in the route table. Its waypoints are named by
   * their registry entries (`stops`), because the scene compares the first
   * waypoint with the registry entry by identity: each registry entry is its
   * own array, so identity of waypoints is identity of their names.
   */
  datatype Route = Route(key: string, stops: seq<string>, safeSpot: string)

  /** What the scene draws for one fire state. */
  datatype Frame = Frame(fire: Option<Coord>, labelAt: Option<Coord>, arrows: seq<Arrow>)

  const OTE_BUILDING: string := "OTE Building"

  /** Height added to both ends of every arrow, to keep it above the ground. */
  const ARROW_LIFT: real := 2.0

  /** Height of the label above the fire anchor. */
  const LABEL_LIFT: real := 10.0

  /** The location registry. */
  function Locations(): map<string, Coord>
  {
    map[
      "OTE Building" := Coord(-40.0, 1.0, 25.0),
      "Road Point 1" := Coord(-43.0, 1.0, 18.0),
      "Road Point 2" := Coord(-7.0, 1.0, -30.0),
      "OAKA" := Coord(15.0, 1.0, -15.0),
      "two" := Coord(-29.8, 1.0, 14.0),
      "three" := Coord(-15.0, 1.0, 20.0),
      "four" := Coord(0.0, 1.0, 25.0),
      "five" := Coord(18.5, 1.0, 12.0),
      "six" := Coord(1.0, 1.0, 2.0),
      "seven" := Coord(15.0, 1.0, -15.0)
    ]
  }

  /** Registry lookup; an unregistered name has no coordinate. */
  function Lookup(name: string): (r: Option<Coord>)
    ensures r.Some? <==> name in Locations()
    ensures r.Some? ==> r.value == Locations()[name]
  {
    if name in Locations() then Some(Locations()[name]) else None
  }

  /** The ten registered names, as listed in the registry literal. */
  function RegisteredNames(): set<string>
  {
    {"OTE Building", "Road Point 1", "Road Point 2", "OAKA",
     "two", "three", "four", "five", "six", "seven"}
  }

  /** Every lookup of a registered name gives its literal coordinate. */
  lemma RegistryLiterals()
    ensures Lookup("OTE Building") == Some(Coord(-40.0, 1.0, 25.0))
    ensures Lookup("Road Point 1") == Some(Coord(-43.0, 1.0, 18.0))
    ensures Lookup("Road Point 2") == Some(Coord(-7.0, 1.0, -30.0))
    ensures Lookup("OAKA") == Some(Coord(15.0, 1.0, -15.0))
    ensures Lookup("two") == Some(Coord(-29.8, 1.0, 14.0))
    ensures Lookup("three") == Some(Coord(-15.0, 1.0, 20.0))
    ensures Lookup("four") == Some(Coord(0.0, 1.0, 25.0))
    ensures Lookup("five") == Some(Coord(18.5, 1.0, 12.0))
    ensures Lookup("six") == Some(Coord(1.0, 1.0, 2.0))
    ensures Lookup("seven") == Some(Coord(15.0, 1.0, -15.0))
    ensures Lookup("OAKA") == Lookup("seven")
  {
  }

  /** A lookup succeeds exactly for the ten registered names. */
  lemma LookupDefinedIff(name: string)
    ensures Lookup(name).Some? <==> name in RegisteredNames()
  {
  }

  /**
   * The fire anchor for a selection: none for the empty selection, otherwise
   * the registry lookup (none for an unregistered name).
   */
  function FirePosition(selected: string): (r: Option<Coord>)
    ensures r.Some? <==> selected != "" && selected in RegisteredNames()
    ensures r.Some? ==> Lookup(selected) == r
  {
    if selected == "" then None else Lookup(selected)
  }

  /** The fire is drawn only while it is shown and its anchor resolves. */
  function FireAnchor(showFire: bool, selected: string): (r: Option<Coord>)
    ensures r.Some? <==> showFire && FirePosition(selected).Some?
    ensures r.Some? ==> r == FirePosition(selected)
  {
    if showFire then FirePosition(selected) else None
  }

  /** Raise a point by `dy`, keeping x and z. */
  function Raised(c: Coord, dy: real): Coord
  {
    Coord(c.x, c.y + dy, c.z)
  }

  /** The label is drawn with the fire, `LABEL_LIFT` above its anchor. */
  function LabelPosition(showFire: bool, selected: string): (r: Option<Coord>)
    ensures r.Some? <==> FireAnchor(showFire, selected).Some?
    ensures r.Some? ==>
      var a := FireAnchor(showFire, selected).value;
      r.value.x == a.x && r.value.y == a.y + LABEL_LIFT && r.value.z == a.z
  {
    match FireAnchor(showFire, selected)
    case None => None
    case Some(a) => Some(Raised(a, LABEL_LIFT))
  }

  /** The route table, in its key order. */
  function NavigationPaths(): seq<Route>
  {
    [
      Route("OTE Building",
            ["OTE Building", "Road Point 1", "Road Point 2", "OAKA"],
            "OAKA"),
      Route("OTE Building - Path 2",
            ["OTE Building", "two", "three", "four", "five", "six", "seven"],
            "Some New Safe Spot")
    ]
  }

  /** Every waypoint of a route names a registry entry. */
  predicate Registered(stops: seq<string>)
  {
    forall i :: 0 <= i < |stops| ==> stops[i] in Locations()
  }

  predicate AllRegistered(routes: seq<Route>)
  {
    forall i :: 0 <= i < |routes| ==> Registered(routes[i].stops)
  }

  /** The coordinates of a route's waypoints, resolved through the registry. */
  function Path(stops: seq<string>): (p: seq<Coord>)
    requires Registered(stops)
    ensures |p| == |stops|
    ensures forall i :: 0 <= i < |stops| ==> Some(p[i]) == Lookup(stops[i])
  {
    seq(|stops|, i requires 0 <= i < |stops| => Locations()[stops[i]])
  }

  /** The route table is well formed and is the one the scene relies on. */
  lemma TableWellFormed()
    ensures AllRegistered(NavigationPaths())
    ensures |NavigationPaths()| == 2
    ensures forall i :: 0 <= i < 2 ==> StartsAtOte(NavigationPaths()[i])
    ensures forall i :: 0 <= i < 2 ==>
      Path(NavigationPaths()[i].stops)[0] == Locations()[OTE_BUILDING]
    ensures |NavigationPaths()[0].stops| == 4
    ensures NavigationPaths()[0].stops[3] == "OAKA"
    ensures |NavigationPaths()[1].stops| == 7
    ensures NavigationPaths()[1].stops[6] == "seven"
    ensures Path(NavigationPaths()[0].stops)[3] == Path(NavigationPaths()[1].stops)[6]
  {
    var routes := NavigationPaths();
    assert Registered(routes[0].stops);
    assert Registered(routes[1].stops);
  }

  /** Yellow for the route keyed "OTE Building", lime for every other key. */
  function ColorFor(key: string): (c: Color)
    ensures c == Yellow <==> key == OTE_BUILDING
    ensures c == Lime <==> key != OTE_BUILDING
  {
    if key == OTE_BUILDING then Yellow else Lime
  }

  /**
   * The identity test on the route's first waypoint: it is the registry's
   * "OTE Building" entry itself. An empty path has no first waypoint.
   */
  predicate StartsAtOte(r: Route)
  {
    |r.stops| > 0 && r.stops[0] == OTE_BUILDING
  }

  /** One arrow per consecutive pair of waypoints, both ends raised. */
  function Segments(path: seq<Coord>, color: Color): (r: seq<Arrow>)
    ensures |r| == if |path| == 0 then 0 else |path| - 1
  {
    if |path| < 2 then []
    else [Arrow(Raised(path[0], ARROW_LIFT), Raised(path[1], ARROW_LIFT), color)]
         + Segments(path[1..], color)
  }

  /**
   * Arrow i of a path goes from waypoint i to waypoint i + 1, each lifted by
   * `ARROW_LIFT` with x and z unchanged, in the route's colour.
   */
  lemma {:induction false} SegmentsAt(path: seq<Coord>, color: Color, i: nat)
    requires i + 1 < |path|
    ensures |Segments(path, color)| == |path| - 1
    ensures Segments(path, color)[i].start.x == path[i].x
    ensures Segments(path, color)[i].start.y == path[i].y + ARROW_LIFT
    ensures Segments(path, color)[i].start.z == path[i].z
    ensures Segments(path, color)[i].end.x == path[i + 1].x
    ensures Segments(path, color)[i].end.y == path[i + 1].y + ARROW_LIFT
    ensures Segments(path, color)[i].end.z == path[i + 1].z
    ensures Segments(path, color)[i].color == color
  {
    if i > 0 {
      SegmentsAt(path[1..], color, i - 1);
    }
  }

  /** A route is drawn when the selection is "OTE Building" and the route starts there. */
  predicate Contributes(selected: string, r: Route)
  {
    selected == OTE_BUILDING && StartsAtOte(r)
  }

  /** The arrows one route adds: its segments in its key's colour, or none. */
  function Contribution(selected: string, r: Route): seq<Arrow>
    requires Registered(r.stops)
  {
    if Contributes(selected, r) then Segments(Path(r.stops), ColorFor(r.key)) else []
  }

  /** One arrow list per route, in table order: the source's `map` over the route keys. */
  function Contributions(selected: string, routes: seq<Route>): (cs: seq<seq<Arrow>>)
    requires AllRegistered(routes)
    ensures |cs| == |routes|
    ensures forall i :: 0 <= i < |routes| ==> cs[i] == Contribution(selected, routes[i])
  {
    seq(|routes|, i requires 0 <= i < |routes| => Contribution(selected, routes[i]))
  }

  /** Lists of arrows laid end to end, as the rendered fragments are. */
  function Flatten(xs: seq<seq<Arrow>>): seq<Arrow>
  {
    if xs == [] then [] else xs[0] + Flatten(xs[1..])
  }

  /** Flattening two runs of lists is flattening each, then joining. */
  lemma {:induction false} FlattenAppend(a: seq<seq<Arrow>>, b: seq<seq<Arrow>>)
    ensures Flatten(a + b) == Flatten(a) + Flatten(b)
    decreases |a|
  {
    if a == [] {
      assert a + b == b;
    } else {
      FlattenAppend(a[1..], b);
      assert (a + b)[0] == a[0];
      assert (a + b)[1..] == a[1..] + b;
    }
  }

  /** Only empty lists flatten to nothing. */
  lemma {:induction false} FlattenEmpty(xs: seq<seq<Arrow>>)
    ensures (forall i :: 0 <= i < |xs| ==> xs[i] == []) <==> Flatten(xs) == []
    decreases |xs|
  {
    if xs != [] {
      FlattenEmpty(xs[1..]);
      assert forall i :: 0 <= i < |xs| - 1 ==> xs[1..][i] == xs[i + 1];
    }
  }

  /**
   * The arrows of every route in table order; a route contributes only when
   * the selection is "OTE Building" and the route starts at that entry.
   */
  function RouteArrows(selected: string, routes: seq<Route>): (r: seq<Arrow>)
    requires AllRegistered(routes)
    ensures selected != OTE_BUILDING ==> r == []
  {
    var cs := Contributions(selected, routes);
    FlattenEmpty(cs);
    Flatten(cs)
  }

  /** Both halves of a registered table are registered. */
  lemma AllRegisteredSlices(routes: seq<Route>, i: nat)
    requires AllRegistered(routes) && i <= |routes|
    ensures AllRegistered(routes[..i]) && AllRegistered(routes[i..])
  {
    assert forall j :: 0 <= j < i ==> routes[..i][j] == routes[j];
    assert forall j :: 0 <= j < |routes| - i ==> routes[i..][j] == routes[i + j];
  }

  lemma AllRegisteredAppend(a: seq<Route>, b: seq<Route>)
    requires AllRegistered(a) && AllRegistered(b)
    ensures AllRegistered(a + b)
  {
    assert forall j :: 0 <= j < |a| ==> (a + b)[j] == a[j];
    assert forall j :: |a| <= j < |a| + |b| ==> (a + b)[j] == b[j - |a|];
  }

  /** The arrows of two tables laid end to end are the arrows of the first, then the second's. */
  lemma RouteArrowsAppend(selected: string, a: seq<Route>, b: seq<Route>)
    requires AllRegistered(a) && AllRegistered(b)
    ensures AllRegistered(a + b)
    ensures RouteArrows(selected, a + b) == RouteArrows(selected, a) + RouteArrows(selected, b)
  {
    AllRegisteredAppend(a, b);
    var ca, cb := Contributions(selected, a), Contributions(selected, b);
    assert Contributions(selected, a + b) == ca + cb by {
      assert forall j :: 0 <= j < |a| ==> (a + b)[j] == a[j];
      assert forall j :: |a| <= j < |a| + |b| ==> (a + b)[j] == b[j - |a|];
    }
    FlattenAppend(ca, cb);
  }

  /** A table of one route draws just that route's contribution. */
  lemma RouteArrowsSingle(selected: string, r: Route)
    requires Registered(r.stops)
    ensures AllRegistered([r])
    ensures RouteArrows(selected, [r]) == Contribution(selected, r)
  {
    assert Contributions(selected, [r]) == [Contribution(selected, r)];
    assert Flatten([Contribution(selected, r)]) == Contribution(selected, r) + Flatten([]);
  }

  /** How many arrows the first `i` routes of the table contribute. */
  function Before(selected: string, routes: seq<Route>, i: nat): nat
    requires AllRegistered(routes) && i <= |routes|
  {
    AllRegisteredSlices(routes, i);
    |RouteArrows(selected, routes[..i])|
  }

  /** Adding one route to a prefix of the table adds that route's contribution. */
  lemma BeforeNext(selected: string, routes: seq<Route>, i: nat)
    requires AllRegistered(routes) && i < |routes|
    ensures Before(selected, routes, i + 1) ==
      Before(selected, routes, i) + |Contribution(selected, routes[i])|
    ensures AllRegistered(routes[..i + 1])
    ensures RouteArrows(selected, routes[..i + 1]) ==
      RouteArrows(selected, routes[..i]) + Contribution(selected, routes[i])
  {
    AllRegisteredSlices(routes, i);
    AllRegisteredSlices(routes, i + 1);
    RouteArrowsSingle(selected, routes[i]);
    assert routes[..i + 1] == routes[..i] + [routes[i]];
    RouteArrowsAppend(selected, routes[..i], [routes[i]]);
  }

  /**
   * The arrows are the routes' contributions laid end to end in table order:
   * route i owns the slice from `Before(i)` to `Before(i + 1)`, which holds
   * its segments in its key's colour when it contributes and is empty
   * otherwise.
   */
  lemma RouteArrowsInOrder(selected: string, routes: seq<Route>, i: nat)
    requires AllRegistered(routes) && i < |routes|
    ensures Before(selected, routes, 0) == 0
    ensures Before(selected, routes, |routes|) == |RouteArrows(selected, routes)|
    ensures Before(selected, routes, i) <= Before(selected, routes, i + 1)
              <= |RouteArrows(selected, routes)|
    ensures Contributes(selected, routes[i]) ==>
      RouteArrows(selected, routes)[Before(selected, routes, i)..Before(selected, routes, i + 1)]
        == Segments(Path(routes[i].stops), ColorFor(routes[i].key))
    ensures !Contributes(selected, routes[i]) ==>
      Before(selected, routes, i + 1) == Before(selected, routes, i)
  {
    assert routes[..0] == [];
    assert routes[..|routes|] == routes;
    BeforeNext(selected, routes, i);
    AllRegisteredSlices(routes, i + 1);
    assert routes == routes[..i + 1] + routes[i + 1..];
    RouteArrowsAppend(selected, routes[..i + 1], routes[i + 1..]);
  }

  /** A route that is drawn and has two or more waypoints yields at least one arrow. */
  lemma RouteArrowsNonEmpty(selected: string, routes: seq<Route>, i: nat)
    requires AllRegistered(routes) && i < |routes|
    requires Contributes(selected, routes[i]) && |routes[i].stops| > 1
    ensures RouteArrows(selected, routes) != []
  {
    RouteArrowsInOrder(selected, routes, i);
  }

  /** The markers of the scene: none unless the fire is shown and a location chosen. */
  function DeriveArrows(showFire: bool, selected: string, routes: seq<Route>): (r: seq<Arrow>)
    requires AllRegistered(routes)
    ensures r != [] ==> showFire && selected == OTE_BUILDING
  {
    if showFire && selected != "" then RouteArrows(selected, routes) else []
  }

  /** Everything the scene draws for one fire state, over the static tables. */
  function Render(showFire: bool, selected: string): (f: Frame)
    ensures f.fire.Some? <==> showFire && selected in RegisteredNames()
    ensures f.fire.Some? ==> f.fire == Lookup(selected)
    ensures f.labelAt.Some? <==> f.fire.Some?
    ensures f.labelAt.Some? ==> f.labelAt.value == Raised(f.fire.value, LABEL_LIFT)
    ensures f.arrows != [] ==> f.fire.Some?
  {
    TableWellFormed();
    Frame(FireAnchor(showFire, selected),
          LabelPosition(showFire, selected),
          DeriveArrows(showFire, selected, NavigationPaths()))
  }

  /** Arrows are drawn exactly when the fire is shown at "OTE Building". */
  lemma ArrowsShownIff(showFire: bool, selected: string)
    ensures Render(showFire, selected).arrows != [] <==> showFire && selected == OTE_BUILDING
  {
    TableWellFormed();
    var routes := NavigationPaths();
    if showFire && selected == OTE_BUILDING {
      RouteArrowsNonEmpty(selected, routes, 0);
    }
  }

  /**
   * With the fire at "OTE Building" the scene draws the three yellow arrows of
   * the first route, then the six lime arrows of the second, in waypoint order.
   */
  lemma OteScenario()
    ensures var arrows := Render(true, OTE_BUILDING).arrows;
      && |arrows| == 9
      && arrows[..3] == Segments(Path(NavigationPaths()[0].stops), Yellow)
      && arrows[3..] == Segments(Path(NavigationPaths()[1].stops), Lime)
      && (forall i :: 0 <= i < 3 ==> arrows[i].color == Yellow)
      && (forall i :: 3 <= i < 9 ==> arrows[i].color == Lime)
  {
    TableWellFormed();
    var routes := NavigationPaths();
    var first := Segments(Path(routes[0].stops), Yellow);
    var second := Segments(Path(routes[1].stops), Lime);
    assert Contributions(OTE_BUILDING, routes) == [first, second];
    assert Flatten([second]) == second + Flatten([]);
    assert Flatten([first, second]) == first + Flatten([second]);
    var arrows := Render(true, OTE_BUILDING).arrows;
    assert arrows == first + second;
    forall i | 0 <= i < 3
      ensures arrows[i].color == Yellow
    {
      SegmentsAt(Path(routes[0].stops), Yellow, i);
    }
    forall i | 3 <= i < 9
      ensures arrows[i].color == Lime
    {
      SegmentsAt(Path(routes[1].stops), Lime, i - 3);
    }
  }

  /** With the fire shown at an unset selection, nothing is drawn. */
  lemma EmptySelectionDrawsNothing(showFire: bool)
    ensures Render(showFire, "") == Frame(None, None, [])
  {
  }
}
