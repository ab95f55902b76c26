/**
 * The earlier map component (src/components/map-routing-update.tsx): three spots, markers
 * coloured by selection alone, the same route fetch, a route framed by two points and no
 * return to the overview when navigation stops.
 */
module MapRoutingUpdate {
  import opened Wrappers
  import opened Geometry
  import opened Surface
  import opened Routing

  /** A spot of the variant's table: a point with a name and a distance text, no capacity. */
  datatype Spot = Spot(lat: real, lng: real, name: string, distance: string)

  function Position(s: Spot): Coord {
    Coord(s.lat, s.lng)
  }

  /** The insertion order of the table's keys, as `Object.entries` lists them. */
  const Order: seq<string> := ["p1", "p2", "p3"]

  /** The `parkingSpots` table of this variant. */
  const Spots: map<string, Spot> := map[
    "p1" := Spot(37.2872, -121.9502, "Main Street Garage", "0.3 mi"),
    "p2" := Spot(37.2865, -121.9485, "City Center Lot", "0.4 mi"),
    "p3" := Spot(37.2855, -121.9495, "West Avenue Parking", "0.5 mi")
  ]

  /** The user's position (Campbell, CA), where the map opens and every route starts. */
  const CurrentLocation: Coord := Coord(37.2876, -121.9497)

  /** The order lists every key of the table once and nothing else. */
  lemma OrderMatchesKeys()
    ensures forall id :: id in Spots <==> id in Order
    ensures forall i, j :: 0 <= i < j < |Order| ==> Order[i] != Order[j]
  {
    assert Spots.Keys == {"p1", "p2", "p3"};
    forall i, j | 0 <= i < j < |Order| ensures Order[i] != Order[j] {
      assert Order[i][1] != Order[j][1];
    }
  }

  /** `id === selectedParkingId ? '#3b82f6' : '#ef4444'`: availability plays no part. */
  function MarkerColor(id: string, selected: Option<string>): (c: Color)
    ensures c == Accent <==> IsSelected(id, selected)
    ensures c != Accent ==> c == RedStatus
  {
    if IsSelected(id, selected) then Accent else RedStatus
  }

  /** The marker of one spot; clicking it selects that spot's id. */
  function SpotMarker(id: string, spot: Spot, selected: Option<string>): (m: Marker)
    ensures m.position == Position(spot) && m.selects == id
    ensures m.color == Accent <==> IsSelected(id, selected)
    ensures m.color != Accent ==> m.color == RedStatus
  {
    Marker(Position(spot), MarkerColor(id, selected), id)
  }

  /** The marker table for the whole table, styled for `selected`. */
  function Markers(selected: Option<string>): map<string, Marker> {
    map id | id in Spots :: SpotMarker(id, Spots[id], selected)
  }

  /** Every spot has one marker at its own position that selects its own id. */
  ghost predicate MarkersMatch(markers: map<string, Marker>) {
    && markers.Keys == Spots.Keys
    && forall id :: id in markers ==> markers[id].position == Position(Spots[id]) && markers[id].selects == id
  }

  /** A table with the table's keys, each entry styled for `selected`, is the marker table. */
  lemma MarkerTableIs(ms: map<string, Marker>, selected: Option<string>)
    requires ms.Keys == Spots.Keys
    requires forall id :: id in ms ==> ms[id] == SpotMarker(id, Spots[id], selected)
    ensures ms == Markers(selected) && MarkersMatch(ms)
  {
    var want := Markers(selected);
    assert ms.Keys == want.Keys;
  }

  /** The ids whose marker shows the accent colour. */
  function AccentIds(ms: map<string, Marker>): set<string> {
    set id | id in ms && ms[id].color == Accent
  }

  /** Only the selected spot, when the table has it, is accented; every other marker is red. */
  lemma AtMostOneAccent(selected: Option<string>)
    ensures AccentIds(Markers(selected)) == if selected.Some? && selected.value in Spots then {selected.value} else {}
    ensures forall id :: id in Markers(selected) && id !in AccentIds(Markers(selected)) ==>
              Markers(selected)[id].color == RedStatus
  {
    var ms := Markers(selected);
    var expected := if selected.Some? && selected.value in Spots then {selected.value} else {};
    forall id ensures id in AccentIds(ms) <==> id in expected {
      if id in Spots {
        assert ms[id].color == Accent <==> IsSelected(id, selected);
      }
    }
  }

  /** The camera target of a route: the smallest box around current location and the spot. */
  function RouteFrame(target: Coord): (b: Bounds)
    ensures Contains(b, CurrentLocation) && Contains(b, target)
    ensures forall other: Bounds ::
              (Contains(other, CurrentLocation) && Contains(other, target)) ==>
              other.south <= b.south && b.north <= other.north && other.west <= b.west && b.east <= other.east
  {
    var ps := [CurrentLocation, target];
    assert Contains(BoundsOf(ps), ps[0]) && Contains(BoundsOf(ps), ps[1]);
    forall other: Bounds | Contains(other, CurrentLocation) && Contains(other, target)
      ensures other.south <= BoundsOf(ps).south && BoundsOf(ps).north <= other.north
      ensures other.west <= BoundsOf(ps).west && BoundsOf(ps).east <= other.east
    {
      BoundsOfIsSmallest(ps, other);
    }
    BoundsOf(ps)
  }

  /** The route polyline's style in this variant. */
  function NavigationRoute(path: seq<Coord>): (r: RouteLine)
    ensures r.path == path && r.color == Accent && r.weight == 4 && r.opacity == 0.7
  {
    RouteLine(path, Accent, 4, 0.7)
  }

  /** Would `drawRoute` draw a route for this selection and navigation flag? */
  predicate Draws(selected: Option<string>, navigating: bool) {
    navigating && HasSelection(selected) && selected.value in Spots
  }

  /**
   * The `Object.entries(parkingSpots).forEach` of the init effect: one marker per entry,
   * coloured for the selection the map was created with.
   */
  method BuildMarkers(selectedParkingId: Option<string>) returns (markers: map<string, Marker>)
    ensures markers == Markers(selectedParkingId) && MarkersMatch(markers)
  {
    OrderMatchesKeys();
    markers := map[];
    var i := 0;
    while i < |Order|
      invariant 0 <= i <= |Order|
      invariant markers.Keys == set id | id in Order[..i]
      invariant forall id :: id in markers ==> markers[id] == SpotMarker(id, Spots[id], selectedParkingId)
    {
      var id := Order[i];
      markers := markers[id := SpotMarker(id, Spots[id], selectedParkingId)];
      assert Order[..i + 1] == Order[..i] + [id];
      i := i + 1;
    }
    assert Order[..i] == Order;
    MarkerTableIs(markers, selectedParkingId);
  }

  /** One map session of the variant: the surface state and the component's refs. */
  class VariantSession {
    const currentMarker: Coord
    var tiles: TileLayer
    var camera: Camera
    var markers: map<string, Marker>
    var route: Option<RouteLine>
    var isLoadingRoute: bool
    /** Every value passed to `setIsLoadingRoute`, in order. */
    ghost var loadingTrace: seq<bool>

    ghost predicate Valid()
      reads this
    {
      MarkersMatch(markers)
    }

    /**
     * The init effect, which runs again for every view mode: create the map at the overview,
     * the tiles of the mode, the current-location marker and one marker per spot.
     */
    constructor (viewMode: ViewMode, selectedParkingId: Option<string>)
      ensures Valid()
      ensures markers == Markers(selectedParkingId)
      ensures tiles == TileLayerFor(viewMode) && camera == SetView(CurrentLocation, OverviewZoom)
      ensures currentMarker == CurrentLocation
      ensures route == None && !isLoadingRoute && loadingTrace == []
    {
      var ms := BuildMarkers(selectedParkingId);
      currentMarker := CurrentLocation;
      tiles := TileLayerFor(viewMode);
      camera := SetView(CurrentLocation, OverviewZoom);
      markers := ms;
      route := None;
      isLoadingRoute := false;
      loadingTrace := [];
    }

    /**
     * A change of view mode when the parent does not key the map by view mode. The init
     * effect depends on `viewMode`, so it tears the map down and builds a new one: overview camera, the new tiles, markers for the current selection.
     * The selection effect does not depend on `viewMode` and does not run, so the new map has
     * no route even while navigating, until the selection or the navigation flag changes.
     * Under a parent that keys the map by view mode, the change is a `Mount` instead.
     */
    method ReinitForViewMode(viewMode: ViewMode, selectedParkingId: Option<string>)
      requires Valid()
      modifies this`tiles, this`camera, this`markers, this`route
      ensures Valid()
      ensures tiles == TileLayerFor(viewMode) && camera == SetView(CurrentLocation, OverviewZoom)
      ensures markers == Markers(selectedParkingId)
      ensures route == None
    {
      var ms := BuildMarkers(selectedParkingId);
      tiles := TileLayerFor(viewMode);
      camera := SetView(CurrentLocation, OverviewZoom);
      markers := ms;
      route := None;
    }

    /**
     * The `setIcon` loop: every marker is given its icon again, red unless it is the selected
     * one, so a second run changes nothing.
     */
    method Restyle(selectedParkingId: Option<string>)
      requires Valid()
      modifies this`markers
      ensures Valid()
      ensures markers == Markers(selectedParkingId)
    {
      ghost var before := markers;
      var icons := markers;
      var pending := icons.Keys;
      while pending != {}
        invariant pending <= icons.Keys && icons.Keys == before.Keys
        invariant forall id :: id in icons && id in pending ==> icons[id] == before[id]
        invariant forall id :: id in icons && id !in pending ==>
                    icons[id] == SpotMarker(id, Spots[id], selectedParkingId)
        decreases pending
      {
        var id :| id in pending;
        icons := icons[id := icons[id].(color := MarkerColor(id, selectedParkingId))];
        pending := pending - {id};
      }
      MarkerTableIs(icons, selectedParkingId);
      markers := icons;
    }

    /**
     * `fetchRoute`. A spot id the table lacks arrives as an `undefined` end; reading its
     * `lng` for the request URL throws, the fallback throws again when it reads `lat`, and
     * only the `finally` runs: no path comes back. The loading flag is raised first and
     * lowered on every way out.
     */
    method FetchRoute(start: Coord, end: Option<Coord>, response: RouteResponse) returns (path: Option<seq<Coord>>)
      modifies this`isLoadingRoute, this`loadingTrace
      ensures end.Some? ==> path == Some(ResolveRoute(start, end.value, response))
      ensures end.None? ==> path.None?
      ensures !isLoadingRoute && loadingTrace == old(loadingTrace) + [true, false]
    {
      isLoadingRoute := true;
      loadingTrace := loadingTrace + [true];
      if end.Some? {
        path := Some(ResolveRoute(start, end.value, response));
      } else {
        path := None;
      }
      isLoadingRoute := false;
      loadingTrace := loadingTrace + [false];
    }

    /**
     * `drawRoute`: the old route always goes first. Navigating with a selection fetches a
     * route to the spot's own point; for a known spot it is drawn and the camera frames the
     * two end points, while an unknown one ends in the exception `FetchRoute` describes. Not
     * navigating, or no selection, leaves the camera where it is.
     */
    method DrawRoute(selectedParkingId: Option<string>, isNavigating: bool, response: RouteResponse)
      requires Valid()
      modifies this`route, this`camera, this`isLoadingRoute, this`loadingTrace
      ensures Valid()
      ensures Draws(selectedParkingId, isNavigating) ==>
                var target := Position(Spots[selectedParkingId.value]);
                && route == Some(NavigationRoute(ResolveRoute(CurrentLocation, target, response)))
                && camera == FitBounds(RouteFrame(target), 50, 50)
      ensures !Draws(selectedParkingId, isNavigating) ==> route == None && camera == old(camera)
      ensures isNavigating && HasSelection(selectedParkingId) ==>
                !isLoadingRoute && loadingTrace == old(loadingTrace) + [true, false]
      ensures !(isNavigating && HasSelection(selectedParkingId)) ==>
                isLoadingRoute == old(isLoadingRoute) && loadingTrace == old(loadingTrace)
    {
      route := None;
      if isNavigating && HasSelection(selectedParkingId) {
        var destination := if selectedParkingId.value in Spots then Some(Position(Spots[selectedParkingId.value])) else None;
        var path := FetchRoute(CurrentLocation, destination, response);
        if path.Some? {
          route := Some(NavigationRoute(path.value));
          camera := FitBounds(RouteFrame(destination.value), 50, 50);
        }
      }
    }

    /** The effect on `[selectedParkingId, isNavigating]`: restyle, then `drawRoute`. */
    method Reconcile(selectedParkingId: Option<string>, isNavigating: bool, response: RouteResponse)
      requires Valid()
      modifies this`markers, this`route, this`camera, this`isLoadingRoute, this`loadingTrace
      ensures Valid()
      ensures markers == Markers(selectedParkingId)
      ensures Draws(selectedParkingId, isNavigating) ==>
                var target := Position(Spots[selectedParkingId.value]);
                && route == Some(NavigationRoute(ResolveRoute(CurrentLocation, target, response)))
                && camera == FitBounds(RouteFrame(target), 50, 50)
      ensures !Draws(selectedParkingId, isNavigating) ==> route == None && camera == old(camera)
      ensures isNavigating && HasSelection(selectedParkingId) ==>
                !isLoadingRoute && loadingTrace == old(loadingTrace) + [true, false]
      ensures !(isNavigating && HasSelection(selectedParkingId)) ==>
                isLoadingRoute == old(isLoadingRoute) && loadingTrace == old(loadingTrace)
    {
      Restyle(selectedParkingId);
      DrawRoute(selectedParkingId, isNavigating, response);
    }
  }

  /**
   * Mounting the variant: React runs the init effect, then the selection effect, so the first
   * map is restyled and, when navigating to a known spot, routed and framed.
   */
  method Mount(viewMode: ViewMode, selectedParkingId: Option<string>, isNavigating: bool, response: RouteResponse)
    returns (session: VariantSession)
    ensures fresh(session) && session.Valid()
    ensures session.tiles == TileLayerFor(viewMode)
    ensures session.markers == Markers(selectedParkingId)
    ensures Draws(selectedParkingId, isNavigating) ==>
              var target := Position(Spots[selectedParkingId.value]);
              && session.route == Some(NavigationRoute(ResolveRoute(CurrentLocation, target, response)))
              && session.camera == FitBounds(RouteFrame(target), 50, 50)
    ensures !Draws(selectedParkingId, isNavigating) ==>
              session.route == None && session.camera == SetView(CurrentLocation, OverviewZoom)
    ensures isNavigating && HasSelection(selectedParkingId) ==>
              !session.isLoadingRoute && session.loadingTrace == [true, false]
    ensures !(isNavigating && HasSelection(selectedParkingId)) ==>
              !session.isLoadingRoute && session.loadingTrace == []
  {
    session := new VariantSession(viewMode, selectedParkingId);
    session.Reconcile(selectedParkingId, isNavigating, response);
  }
}
