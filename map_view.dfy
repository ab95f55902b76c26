/**
 * The map component (src/components/MapView.tsx) as one map session: the overlay table built
 * when the map is created, the restyle run on every change of selection or navigation, the
 * route fetch with its loading flag, and the route and camera logic of `drawRoute`.
 */
module MapView {
  import opened Wrappers
  import opened Geometry
  import opened Registry
  import opened Availability
  import opened Surface
  import opened Routing

  /** `status.color === 'green' ? '#22c55e' : status.color === 'yellow' ? '#eab308' : '#ef4444'`. */
  function StatusColor(b: Band): (c: Color)
    ensures c != Accent
  {
    match b
    case Green => GreenStatus
    case Yellow => YellowStatus
    case Red => RedStatus
  }

  /**
   * The colour of a spot's handle: the accent exactly when the spot is the selected one, else
   * the colour of its availability band.
   */
  function SpotColor(id: string, spot: Spot, selected: Option<string>): (c: Color)
    ensures c == Accent <==> IsSelected(id, selected)
    ensures !IsSelected(id, selected) && spot.total > 0 ==>
              (c == GreenStatus <==> 2 * spot.available > spot.total) &&
              (c == RedStatus <==> 5 * spot.available <= spot.total)
  {
    if IsSelected(id, selected) then Accent
    else StatusColor(GetAvailabilityStatus(spot.available, spot.total).color)
  }

  /** The "P" marker of a garage or lot. */
  function PointMarker(id: string, spot: Spot, selected: Option<string>): (m: Marker)
    ensures m.position == Position(spot) && m.selects == id
    ensures m.color == Accent <==> IsSelected(id, selected)
    ensures !IsSelected(id, selected) && spot.total > 0 ==>
              (m.color == GreenStatus <==> 2 * spot.available > spot.total) &&
              (m.color == RedStatus <==> 5 * spot.available <= spot.total)
  {
    Marker(Position(spot), SpotColor(id, spot, selected), id)
  }

  /** A street polyline as the build creates it: weight 8 and opacity 0.8 even when selected. */
  function BuiltStreetLine(id: string, spot: Spot, selected: Option<string>): (l: StreetLine)
    requires IsStreetLine(spot)
    ensures l.path == spot.streetZone.value && l.selects == id
    ensures l.weight == 8 && l.opacity == 0.8
    ensures l.color == Accent <==> IsSelected(id, selected)
    ensures !IsSelected(id, selected) && spot.total > 0 ==>
              (l.color == GreenStatus <==> 2 * spot.available > spot.total) &&
              (l.color == RedStatus <==> 5 * spot.available <= spot.total)
  {
    StreetLine(spot.streetZone.value, SpotColor(id, spot, selected), 8, 0.8, id)
  }

  /** A street polyline after `setStyle`: the selected one heavier and fully opaque. */
  function RestyledStreetLine(id: string, spot: Spot, selected: Option<string>): (l: StreetLine)
    requires IsStreetLine(spot)
    ensures l.path == spot.streetZone.value && l.selects == id
    ensures IsSelected(id, selected) ==> l.color == Accent && l.weight == 10 && l.opacity == 1.0
    ensures !IsSelected(id, selected) ==> l.color != Accent && l.weight == 8 && l.opacity == 0.8
    ensures !IsSelected(id, selected) && spot.total > 0 ==>
              (l.color == GreenStatus <==> 2 * spot.available > spot.total) &&
              (l.color == RedStatus <==> 5 * spot.available <= spot.total)
  {
    var selectedHere := IsSelected(id, selected);
    StreetLine(spot.streetZone.value, SpotColor(id, spot, selected),
               if selectedHere then 10 else 8, if selectedHere then 1.0 else 0.8, id)
  }

  /** The marker table for every garage and lot in the catalog. */
  function PointMarkers(c: Catalog, selected: Option<string>): map<string, Marker> {
    map id | id in c.spots && !IsStreetLine(c.spots[id]) :: PointMarker(id, c.spots[id], selected)
  }

  /** The street-line table right after the build. */
  function BuiltStreetLines(c: Catalog, selected: Option<string>): map<string, StreetLine> {
    map id | id in c.spots && IsStreetLine(c.spots[id]) :: BuiltStreetLine(id, c.spots[id], selected)
  }

  /** The street-line table after a restyle. */
  function StreetLines(c: Catalog, selected: Option<string>): map<string, StreetLine> {
    map id | id in c.spots && IsStreetLine(c.spots[id]) :: RestyledStreetLine(id, c.spots[id], selected)
  }

  /** The ids whose handle currently shows the accent colour. */
  function AccentIds(ms: map<string, Marker>, ls: map<string, StreetLine>): set<string> {
    (set id | id in ms && ms[id].color == Accent) + (set id | id in ls && ls[id].color == Accent)
  }

  /** After the build and after every restyle, only the selected spot (if it exists) is accented. */
  lemma AtMostOneAccent(c: Catalog, selected: Option<string>)
    ensures AccentIds(PointMarkers(c, selected), StreetLines(c, selected)) ==
            if selected.Some? && selected.value in c.spots then {selected.value} else {}
    ensures AccentIds(PointMarkers(c, selected), BuiltStreetLines(c, selected)) ==
            if selected.Some? && selected.value in c.spots then {selected.value} else {}
  {
    var expected := if selected.Some? && selected.value in c.spots then {selected.value} else {};
    var ms, ls, bs := PointMarkers(c, selected), StreetLines(c, selected), BuiltStreetLines(c, selected);
    forall id ensures id in AccentIds(ms, ls) <==> id in expected {
      if id in c.spots && IsStreetLine(c.spots[id]) {
        assert ls[id].color == Accent <==> IsSelected(id, selected);
      } else if id in c.spots {
        assert ms[id].color == Accent <==> IsSelected(id, selected);
      }
    }
    forall id ensures id in AccentIds(ms, bs) <==> id in expected {
      if id in c.spots && IsStreetLine(c.spots[id]) {
        assert bs[id].color == Accent <==> IsSelected(id, selected);
      } else if id in c.spots {
        assert ms[id].color == Accent <==> IsSelected(id, selected);
      }
    }
  }

  /**
   * The colours the shipped catalog shows with nothing selected: p1 sits exactly at one half
   * and so is yellow, p2 (5 of 30) is red, and the street spots range from yellow to green.
   */
  lemma ShippedColors()
    ensures SpotColor("p1", ParkingSpots.spots["p1"], None) == YellowStatus
    ensures SpotColor("p2", ParkingSpots.spots["p2"], None) == RedStatus
    ensures SpotColor("p3", ParkingSpots.spots["p3"], None) == YellowStatus
    ensures SpotColor("p4", ParkingSpots.spots["p4"], None) == GreenStatus
    ensures SpotColor("p5", ParkingSpots.spots["p5"], None) == GreenStatus
    ensures SpotColor("p6", ParkingSpots.spots["p6"], None) == GreenStatus
    ensures SpotColor("p7", ParkingSpots.spots["p7"], None) == YellowStatus
    ensures SpotColor("p8", ParkingSpots.spots["p8"], None) == GreenStatus
  {
    var m := ParkingSpots.spots;
    assert m["p1"].available == 25 && m["p1"].total == 50;
    assert m["p2"].available == 5 && m["p2"].total == 30;
    assert m["p3"].available == 2 && m["p3"].total == 8;
    assert m["p4"].available == 4 && m["p4"].total == 6;
    assert m["p5"].available == 6 && m["p5"].total == 10;
    assert m["p6"].available == 8 && m["p6"].total == 12;
    assert m["p7"].available == 3 && m["p7"].total == 8;
    assert m["p8"].available == 5 && m["p8"].total == 7;
  }

  /** `parkingSpot.type === 'street' && parkingSpot.streetZone ? midpoint : parkingSpot`. */
  function EffectiveTarget(spot: Spot): (t: Coord)
    requires IsStreetLine(spot) ==> |spot.streetZone.value| >= 2
    ensures IsStreetLine(spot) ==> t == LabelAnchor(spot)
    ensures IsStreetLine(spot) ==>
              t.lat - spot.streetZone.value[0].lat == spot.streetZone.value[1].lat - t.lat &&
              t.lng - spot.streetZone.value[0].lng == spot.streetZone.value[1].lng - t.lng
    ensures !IsStreetLine(spot) ==> t == Position(spot)
  {
    if IsStreetLine(spot) then Midpoint(spot.streetZone.value[0], spot.streetZone.value[1])
    else Position(spot)
  }

  /** Where the build anchors a street zone's "Street Parking" label. */
  function LabelAnchor(spot: Spot): (a: Coord)
    requires IsStreetLine(spot) && |spot.streetZone.value| >= 2
    ensures a.lat - spot.streetZone.value[0].lat == spot.streetZone.value[1].lat - a.lat
    ensures a.lng - spot.streetZone.value[0].lng == spot.streetZone.value[1].lng - a.lng
  {
    Midpoint(spot.streetZone.value[0], spot.streetZone.value[1])
  }

  /** The route frame: the smallest box around current location, target and destination. */
  function RouteFrame(target: Coord): (b: Bounds)
    ensures Contains(b, CurrentLocation) && Contains(b, target) && Contains(b, Destination)
    ensures forall other: Bounds ::
              (Contains(other, CurrentLocation) && Contains(other, target) && Contains(other, Destination)) ==>
              other.south <= b.south && b.north <= other.north && other.west <= b.west && b.east <= other.east
  {
    var ps := [CurrentLocation, target, Destination];
    assert Contains(BoundsOf(ps), ps[0]) && Contains(BoundsOf(ps), ps[1]) && Contains(BoundsOf(ps), ps[2]);
    forall other: Bounds | Contains(other, CurrentLocation) && Contains(other, target) && Contains(other, Destination)
      ensures other.south <= BoundsOf(ps).south && BoundsOf(ps).north <= other.north
      ensures other.west <= BoundsOf(ps).west && BoundsOf(ps).east <= other.east
    {
      BoundsOfIsSmallest(ps, other);
    }
    BoundsOf(ps)
  }

  /** The route polyline's style. */
  function NavigationRoute(path: seq<Coord>): (r: RouteLine)
    ensures r.path == path && r.color == Accent && r.weight == 5 && r.opacity == 0.8
  {
    RouteLine(path, Accent, 5, 0.8)
  }

  /** A table holding exactly the catalog's garages and lots, each styled for `selected`. */
  lemma MarkerTableIs(c: Catalog, ms: map<string, Marker>, selected: Option<string>)
    requires ms.Keys == MarkerIds(c)
    requires forall id :: id in ms ==> ms[id] == PointMarker(id, c.spots[id], selected)
    ensures ms == PointMarkers(c, selected)
  {
    var want := PointMarkers(c, selected);
    assert ms.Keys == want.Keys;
  }

  /** A table holding exactly the catalog's street spots, each restyled for `selected`. */
  lemma LineTableIs(c: Catalog, ls: map<string, StreetLine>, selected: Option<string>)
    requires ls.Keys == StreetLineIds(c)
    requires forall id :: id in ls ==> ls[id] == RestyledStreetLine(id, c.spots[id], selected)
    ensures ls == StreetLines(c, selected)
  {
    var want := StreetLines(c, selected);
    assert ls.Keys == want.Keys;
  }

  lemma BuiltLineTableIs(c: Catalog, ls: map<string, StreetLine>, selected: Option<string>)
    requires ls.Keys == StreetLineIds(c)
    requires forall id :: id in ls ==> ls[id] == BuiltStreetLine(id, c.spots[id], selected)
    ensures ls == BuiltStreetLines(c, selected)
  {
    var want := BuiltStreetLines(c, selected);
    assert ls.Keys == want.Keys;
  }

  /**
   * Every catalog id has exactly one handle, in the table of its kind, standing where the
   * spot is and selecting that id when clicked.
   */
  ghost predicate HandlesMatch(c: Catalog, markers: map<string, Marker>, streetLines: map<string, StreetLine>) {
    && markers.Keys == MarkerIds(c)
    && streetLines.Keys == StreetLineIds(c)
    && (forall id :: id in markers ==> markers[id].position == Position(c.spots[id]) && markers[id].selects == id)
    && (forall id :: id in streetLines ==>
          streetLines[id].path == c.spots[id].streetZone.value && streetLines[id].selects == id)
  }

  /** The build and every restyle leave each handle where its spot is and bound to its own id. */
  lemma TablesMatch(c: Catalog, selected: Option<string>)
    ensures HandlesMatch(c, PointMarkers(c, selected), BuiltStreetLines(c, selected))
    ensures HandlesMatch(c, PointMarkers(c, selected), StreetLines(c, selected))
  {
  }

  /**
   * The `Object.entries(parkingSpots).forEach` of the init effect: one handle per entry, a
   * polyline for a street spot with a zone, a marker for every other spot.
   */
  method BuildHandles(catalog: Catalog, selectedParkingId: Option<string>)
    returns (markers: map<string, Marker>, streetLines: map<string, StreetLine>)
    requires WellFormed(catalog)
    ensures markers == PointMarkers(catalog, selectedParkingId)
    ensures streetLines == BuiltStreetLines(catalog, selectedParkingId)
    ensures HandlesMatch(catalog, markers, streetLines)
  {
    markers, streetLines := map[], map[];
    var i := 0;
    while i < |catalog.order|
      invariant 0 <= i <= |catalog.order|
      invariant forall id :: id in markers <==> id in catalog.order[..i] && id in MarkerIds(catalog)
      invariant forall id :: id in streetLines <==> id in catalog.order[..i] && id in StreetLineIds(catalog)
      invariant forall id :: id in markers ==> markers[id] == PointMarker(id, catalog.spots[id], selectedParkingId)
      invariant forall id :: id in streetLines ==>
                  streetLines[id] == BuiltStreetLine(id, catalog.spots[id], selectedParkingId)
    {
      var id := catalog.order[i];
      var spot := catalog.spots[id];
      if spot.kind == Street && spot.streetZone.Some? {
        streetLines := streetLines[id := BuiltStreetLine(id, spot, selectedParkingId)];
      } else {
        markers := markers[id := PointMarker(id, spot, selectedParkingId)];
      }
      assert catalog.order[..i + 1] == catalog.order[..i] + [id];
      i := i + 1;
    }
    assert catalog.order[..i] == catalog.order;
    MarkerTableIs(catalog, markers, selectedParkingId);
    BuiltLineTableIs(catalog, streetLines, selectedParkingId);
    TablesMatch(catalog, selectedParkingId);
  }

  /**
   * The `setIcon` loop over `markersRef.current`: each garage and lot marker gets the icon
   * for the current selection and its spot's band.
   */
  method RestyleMarkerTable(catalog: Catalog, markers: map<string, Marker>, selectedParkingId: Option<string>)
    returns (icons: map<string, Marker>)
    requires markers.Keys == MarkerIds(catalog)
    requires forall id :: id in markers ==> markers[id].position == Position(catalog.spots[id]) && markers[id].selects == id
    ensures icons == PointMarkers(catalog, selectedParkingId)
  {
    icons := markers;
    var pending := icons.Keys;
    while pending != {}
      invariant pending <= icons.Keys && icons.Keys == markers.Keys
      invariant forall id :: id in icons && id in pending ==> icons[id] == markers[id]
      invariant forall id :: id in icons && id !in pending ==>
                  icons[id] == PointMarker(id, catalog.spots[id], selectedParkingId)
      decreases pending
    {
      var id :| id in pending;
      icons := icons[id := icons[id].(color := SpotColor(id, catalog.spots[id], selectedParkingId))];
      pending := pending - {id};
    }
    MarkerTableIs(catalog, icons, selectedParkingId);
  }

  /**
   * The `setStyle` loop over `streetParkingLayersRef.current`: every street line gets colour,
   * weight and opacity again, heavier and opaque when it is the selected one.
   */
  method RestyleLineTable(catalog: Catalog, streetLines: map<string, StreetLine>, selectedParkingId: Option<string>)
    returns (lines: map<string, StreetLine>)
    requires streetLines.Keys == StreetLineIds(catalog)
    requires forall id :: id in streetLines ==>
               streetLines[id].path == catalog.spots[id].streetZone.value && streetLines[id].selects == id
    ensures lines == StreetLines(catalog, selectedParkingId)
  {
    lines := streetLines;
    var pending := lines.Keys;
    while pending != {}
      invariant pending <= lines.Keys && lines.Keys == streetLines.Keys
      invariant forall id :: id in lines && id in pending ==> lines[id] == streetLines[id]
      invariant forall id :: id in lines && id !in pending ==>
                  lines[id] == RestyledStreetLine(id, catalog.spots[id], selectedParkingId)
      decreases pending
    {
      var id :| id in pending;
      var spot := catalog.spots[id];
      var selectedHere := IsSelected(id, selectedParkingId);
      lines := lines[id := lines[id].(
        color := SpotColor(id, spot, selectedParkingId),
        weight := if selectedHere then 10 else 8,
        opacity := if selectedHere then 1.0 else 0.8)];
      pending := pending - {id};
    }
    LineTableIs(catalog, lines, selectedParkingId);
  }

  /** Would `drawRoute` reach `fetchRoute` for this selection and navigation flag? */
  predicate Draws(c: Catalog, selected: Option<string>, navigating: bool) {
    navigating && HasSelection(selected) && selected.value in c.spots
  }

  /** One map session: the surface state and the component's refs. */
  class MapSession {
    const catalog: Catalog
    const currentMarker: Coord
    const destinationMarker: Coord
    var tiles: TileLayer
    var camera: Camera
    var markers: map<string, Marker>
    var streetLines: map<string, StreetLine>
    var route: Option<RouteLine>
    var isLoadingRoute: bool
    /** Every value passed to `setIsLoadingRoute`, in order. */
    ghost var loadingTrace: seq<bool>

    ghost predicate Valid()
      reads this
    {
      WellFormed(catalog) && HandlesMatch(catalog, markers, streetLines)
    }

    /** The init effect: create the map, the two fixed markers and one handle per spot. */
    constructor (catalog: Catalog, viewMode: ViewMode, selectedParkingId: Option<string>)
      requires WellFormed(catalog)
      ensures Valid() && this.catalog == catalog
      ensures markers == PointMarkers(catalog, selectedParkingId)
      ensures streetLines == BuiltStreetLines(catalog, selectedParkingId)
      ensures tiles == TileLayerFor(viewMode) && camera == SetView(CurrentLocation, OverviewZoom)
      ensures currentMarker == CurrentLocation && destinationMarker == Destination
      ensures route == None && !isLoadingRoute && loadingTrace == []
    {
      var ms, ls := BuildHandles(catalog, selectedParkingId);
      this.catalog := catalog;
      currentMarker := CurrentLocation;
      destinationMarker := Destination;
      tiles := TileLayerFor(viewMode);
      camera := SetView(CurrentLocation, OverviewZoom);
      markers := ms;
      streetLines := ls;
      route := None;
      isLoadingRoute := false;
      loadingTrace := [];
    }

    /** The view-mode effect: drop the tile layer and add the one for the new mode. */
    method SetViewMode(viewMode: ViewMode)
      modifies this`tiles
      ensures tiles == TileLayerFor(viewMode)
    {
      tiles := TileLayerFor(viewMode);
    }

    /**
     * The restyle half of the selection effect: every marker gets its icon and every street
     * line its style again, whether or not its state changed. The result depends on the
     * selection and the catalog only, so a second run changes nothing.
     */
    method Restyle(selectedParkingId: Option<string>)
      requires Valid()
      modifies this`markers, this`streetLines
      ensures Valid()
      ensures markers == PointMarkers(catalog, selectedParkingId)
      ensures streetLines == StreetLines(catalog, selectedParkingId)
    {
      RestyleMarkers(selectedParkingId);
      RestyleStreetLines(selectedParkingId);
    }

    method RestyleMarkers(selectedParkingId: Option<string>)
      requires Valid()
      modifies this`markers
      ensures Valid()
      ensures markers == PointMarkers(catalog, selectedParkingId)
    {
      markers := RestyleMarkerTable(catalog, markers, selectedParkingId);
      TablesMatch(catalog, selectedParkingId);
    }

    method RestyleStreetLines(selectedParkingId: Option<string>)
      requires Valid()
      modifies this`streetLines
      ensures Valid()
      ensures streetLines == StreetLines(catalog, selectedParkingId)
    {
      streetLines := RestyleLineTable(catalog, streetLines, selectedParkingId);
      TablesMatch(catalog, selectedParkingId);
    }

    /** `fetchRoute`: the loading flag is raised first and lowered on every way out. */
    method FetchRoute(start: Coord, end: Coord, response: RouteResponse) returns (path: seq<Coord>)
      modifies this`isLoadingRoute, this`loadingTrace
      ensures path == ResolveRoute(start, end, response)
      ensures !isLoadingRoute && loadingTrace == old(loadingTrace) + [true, false]
    {
      isLoadingRoute := true;
      loadingTrace := loadingTrace + [true];
      path := ResolveRoute(start, end, response);
      isLoadingRoute := false;
      loadingTrace := loadingTrace + [false];
    }

    /**
     * `drawRoute`: the old route always goes first. Navigating with a known selection draws
     * the resolved route and frames it; not navigating returns to the overview; navigating
     * with no selection draws no route and leaves the camera. A selection the catalog lacks makes
     * `parkingSpot.type` throw before the fetch, so nothing is drawn and the camera stays.
     */
    method DrawRoute(selectedParkingId: Option<string>, isNavigating: bool, response: RouteResponse)
      requires Valid()
      modifies this`route, this`camera, this`isLoadingRoute, this`loadingTrace
      ensures Valid()
      ensures Draws(catalog, selectedParkingId, isNavigating) ==>
                var target := EffectiveTarget(catalog.spots[selectedParkingId.value]);
                && route == Some(NavigationRoute(ResolveRoute(CurrentLocation, target, response)))
                && camera == FitBounds(RouteFrame(target), 100, 100)
                && !isLoadingRoute && loadingTrace == old(loadingTrace) + [true, false]
      ensures !Draws(catalog, selectedParkingId, isNavigating) ==>
                route == None && isLoadingRoute == old(isLoadingRoute) && loadingTrace == old(loadingTrace)
      ensures !isNavigating ==> camera == SetView(CurrentLocation, OverviewZoom)
      ensures isNavigating && !Draws(catalog, selectedParkingId, isNavigating) ==> camera == old(camera)
    {
      route := None;
      if isNavigating && HasSelection(selectedParkingId) {
        var found := Get(catalog, selectedParkingId.value);
        if found.Some? {
          var target := EffectiveTarget(found.value);
          var path := FetchRoute(CurrentLocation, target, response);
          route := Some(NavigationRoute(path));
          camera := FitBounds(RouteFrame(target), 100, 100);
        }
      } else if !isNavigating {
        camera := SetView(CurrentLocation, OverviewZoom);
      }
    }

    /** The effect on `[selectedParkingId, isNavigating]`: restyle, then `drawRoute`. */
    method Reconcile(selectedParkingId: Option<string>, isNavigating: bool, response: RouteResponse)
      requires Valid()
      modifies this`markers, this`streetLines, this`route, this`camera, this`isLoadingRoute, this`loadingTrace
      ensures Valid()
      ensures markers == PointMarkers(catalog, selectedParkingId)
      ensures streetLines == StreetLines(catalog, selectedParkingId)
      ensures Draws(catalog, selectedParkingId, isNavigating) ==>
                var target := EffectiveTarget(catalog.spots[selectedParkingId.value]);
                && route == Some(NavigationRoute(ResolveRoute(CurrentLocation, target, response)))
                && camera == FitBounds(RouteFrame(target), 100, 100)
                && !isLoadingRoute && loadingTrace == old(loadingTrace) + [true, false]
      ensures !Draws(catalog, selectedParkingId, isNavigating) ==>
                route == None && isLoadingRoute == old(isLoadingRoute) && loadingTrace == old(loadingTrace)
      ensures !isNavigating ==> camera == SetView(CurrentLocation, OverviewZoom)
      ensures isNavigating && !Draws(catalog, selectedParkingId, isNavigating) ==> camera == old(camera)
    {
      Restyle(selectedParkingId);
      DrawRoute(selectedParkingId, isNavigating, response);
    }
  }

  /**
   * Mounting the component, as each new `key` does: React runs the init effect, the view-mode
   * effect and the selection effect in that order. The first map shown is therefore already
   * restyled (a selected street line is heavy, not the built weight 8) and, when navigating
   * to a known spot, already routed and framed; otherwise it is at the overview.
   */
  method Mount(catalog: Catalog, viewMode: ViewMode, selectedParkingId: Option<string>, isNavigating: bool,
               response: RouteResponse)
    returns (session: MapSession)
    requires WellFormed(catalog)
    ensures fresh(session) && session.Valid() && session.catalog == catalog
    ensures session.tiles == TileLayerFor(viewMode)
    ensures session.markers == PointMarkers(catalog, selectedParkingId)
    ensures session.streetLines == StreetLines(catalog, selectedParkingId)
    ensures Draws(catalog, selectedParkingId, isNavigating) ==>
              var target := EffectiveTarget(catalog.spots[selectedParkingId.value]);
              && session.route == Some(NavigationRoute(ResolveRoute(CurrentLocation, target, response)))
              && session.camera == FitBounds(RouteFrame(target), 100, 100)
              && !session.isLoadingRoute && session.loadingTrace == [true, false]
    ensures !Draws(catalog, selectedParkingId, isNavigating) ==>
              && session.route == None && session.camera == SetView(CurrentLocation, OverviewZoom)
              && !session.isLoadingRoute && session.loadingTrace == []
  {
    session := new MapSession(catalog, viewMode, selectedParkingId);
    session.SetViewMode(viewMode);
    session.Reconcile(selectedParkingId, isNavigating, response);
  }
}
