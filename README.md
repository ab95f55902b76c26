# Parking map overlay — a Dafny model

This project models the map logic of a small parking-finder web app. The app is a React/Leaflet
front end: a map of parking spots near a destination ("Downtown Plaza"), and a card for picking
a spot. It also offers navigation to the chosen spot along a route fetched from a routing
service. The model covers three parts:

- **The map component** (`src/components/MapView.tsx`):
  - the spot catalog and the availability classifier;
  - the build of one overlay handle per spot (a marker for a garage or lot, a polyline for a
    street spot);
  - the restyle run on every change of selection or navigation;
  - the route fetch with its straight-line fallback and loading flag;
  - `drawRoute`, which removes the old route and then draws and frames a new one, returns the
    camera to the overview, or does nothing.
- **The earlier variant of that component** (`src/components/map-routing-update.tsx`). It has
  three spots, colours markers by selection alone, frames two points with padding 50, and its
  `drawRoute` never resets the camera when navigation stops.
- **The application shell** (`src/App.tsx`). It holds three pieces of state and the handlers
  that overwrite them, and keys the map by view mode.

Layout, one module per file:

| file | module | what it holds |
|---|---|---|
| `wrappers.dfy` | `Wrappers` | `Option`, used for `null`, `undefined` and a missing key |
| `geometry.dfy` | `Geometry` | points, `[lng,lat]` pairs and transposition, midpoint, bounding boxes |
| `registry.dfy` | `Registry` | the spot catalog, its well-formedness, the fixed locations |
| `availability.dfy` | `Availability` | `getAvailabilityStatus` |
| `surface.dfy` | `Surface` | the abstract map surface: handle styles, camera, tiles, palette |
| `routing.dfy` | `Routing` | the routing response as an input, and what `fetchRoute` resolves to |
| `map_view.dfy` | `MapView` | the overlay tables and the class `MapSession` (one mounted map) |
| `map_routing_update.dfy` | `MapRoutingUpdate` | the variant and its class `VariantSession` |
| `app.dfy` | `App` | the app state, its transitions and the class `AppState` |

Modelling choices:

- **Rendering surface.** It is a state of plain values:
  - a map from spot id to the style record of its handle;
  - the optional route line;
  - the last camera command;
  - the tile layer.
- **Routing service.** Its answer is an input, `RouteResponse`. It is either a network error or
  a response with an `ok` flag and, if parsing worked, its list of routes.
- **Loading flag.** Each session keeps the flag as a field. A ghost trace records every value
  passed to the setter, so "true first, false on every way out" can be stated.
- **Coordinates.** They are `real`. Capacities are integers.
- **Classifier.** The contract of `Classify` states the source's ratio test on reals. This
  includes its behaviour for a zero total, where JavaScript's `x/0` is `Infinity`, `NaN` or
  `-Infinity`. The body decides by integer cross-multiplication, proved equal to that test.
  `Availability.Thresholds` states the integer form: `2*available > total` for green and
  `5*available <= total` for red (when the total is positive).
- **Selection.** A selection is `Option<string>`. `drawRoute` tests `selectedParkingId` for
  JavaScript truthiness, so the empty string counts as no selection (`Surface.HasSelection`).
- **Unknown selected id.**
  - In `MapView.tsx`, `drawRoute` reads `parkingSpot.type` of `undefined` and throws before the
    fetch. The route is already gone, and the camera and loading flag are untouched.
  - In the variant, `fetchRoute` runs with an `undefined` end. The flag goes up and down, and
    the call throws, so nothing is drawn.
- **Source events and methods.**
  - Mounting `MapView` (every new `key`) runs the init effect, the view-mode effect and the
    selection effect in that order: `MapView.Mount` is constructor, then `SetViewMode`, then
    `Reconcile`. The constructor alone is the build: a selected street line is built with
    weight 8 and opacity 0.8, and only the restyle that follows makes it weight 10.
  - A change of selection or navigation flag runs the selection effect: `Reconcile`.
  - Mounting the variant runs its init effect and then its selection effect:
    `MapRoutingUpdate.Mount` is constructor, then `Reconcile`.
  - In the variant, when its parent does not key it by view mode, a view-mode change re-runs
    only the init effect, which depends on `viewMode`; the selection effect does not depend
    on it. That is `VariantSession.ReinitForViewMode`. Such a variant loses the route on a
    view-mode change: while navigating, the new map shows no route until the selection or
    the navigation flag changes. Under a parent keyed as in `src/App.tsx`, a view-mode change
    remounts the variant instead, which is `MapRoutingUpdate.Mount`.
- **Catalog as a parameter.** `MapSession` takes the catalog as a constructor argument that must
  be well formed. `Registry.ParkingSpotsWellFormed` proves that the shipped catalog is.

## Model

| member | source | states |
|---|---|---|
| Geometry.Transpose | src/components/MapView.tsx:167 | each `[lng,lat]` pair becomes the point with the same lat and lng, same length and order |
| Geometry.TransposeInverse | src/components/MapView.tsx:157-167 | turning points into `[lng,lat]` pairs and back gives the original points |
| Geometry.Midpoint | src/components/MapView.tsx:253-256 | the midpoint is equally far from both ends in each coordinate and lies between them |
| Geometry.Extend | src/components/MapView.tsx:385-389 | extending a box by a point holds the box and the point, and stays inside every box holding the old corners and the point |
| Geometry.BoundsOf | src/components/MapView.tsx:385-389 | `latLngBounds` of a non-empty point list contains every point, and each edge is attained by one of them |
| Geometry.BoundsOfIsSmallest | src/components/MapView.tsx:385-390 | any box containing all the points contains the computed bounds |
| Registry.Get | src/components/MapView.tsx:366 | `parkingSpots[id]` is defined exactly for the catalog's keys and is that entry |
| Registry.IdsPartition | src/components/MapView.tsx:233-300 | the marker ids and the street-line ids are disjoint and together are all catalog ids |
| Registry.ParkingSpotsWellFormed | src/components/MapView.tsx:17-130 | the shipped catalog has 8 distinct ids; every spot has `total > 0` and `0 <= available <= total`; every street spot has a two-point zone; p1 and p2 are markers and p3–p8 lines |
| Registry.OrderMatchesKeys | src/components/MapView.tsx:17-130 | the eight keys are distinct and the entry order lists exactly the keys |
| Registry.HandleKinds | src/components/MapView.tsx:17-130 | the garage and lot are p1 and p2; the street spots are p3–p8 |
| Registry.KindOf | src/components/MapView.tsx:17-130 | each of p1–p8 is in the catalog, and it is a street line exactly when it is not p1 or p2 |
| Registry.SpotsWellFormed | src/components/MapView.tsx:17-130 | each shipped entry meets the registry constraints |
| Availability.RatioAbove | src/components/MapView.tsx:136-138 | `available/total > num/den` is the cross-multiplied integer test, with its direction set by the sign of `total` |
| Availability.Classify | src/components/MapView.tsx:135-140 | green iff the ratio exceeds 0.5; yellow iff it does not but exceeds 0.2; red otherwise; for a zero total, green iff `available > 0` and never yellow |
| Availability.GetAvailabilityStatus | src/components/MapView.tsx:135-140 | for a nonzero total: green with "Plenty of parking left" iff the ratio exceeds 0.5; yellow with "Moderate parking" iff it does not but exceeds 0.2; red with "Limited parking" iff it does not exceed 0.2; for a zero total, green iff `available > 0`, else red |
| Availability.Thresholds | src/components/MapView.tsx:135-140 | for a positive total: green iff `2*available > total`, red iff `5*available <= total` |
| Availability.Monotone | src/components/MapView.tsx:135-140 | with the total fixed, more available places never give a worse band |
| Availability.Boundaries | src/components/MapView.tsx:137-139 | a ratio of exactly 0.5 is yellow, exactly 0.2 is red "Limited parking", just above each is the better band |
| Surface.HexInjective | src/components/MapView.tsx:353 | the four palette colours are distinct CSS values |
| Surface.TileLayerFor | src/components/MapView.tsx:318-320 | satellite mode uses the imagery server and map mode OpenStreetMap, both with max zoom 19 |
| Surface.TileSourcesDiffer | src/components/MapView.tsx:318-320 | the two modes load tiles from different addresses |
| Routing.Waypoints | src/components/MapView.tsx:156-158 | the request writes the start then the end, each as `lng,lat` |
| Routing.Fallback | src/components/MapView.tsx:170 | the fallback is the two-point line from start to end |
| Routing.ResolveRoute | src/components/MapView.tsx:153-174 | on success the first route's `[lng,lat]` pairs are transposed in order; on any failure the result is exactly `[start, end]` |
| Routing.EchoedWaypointsGiveFallback | src/components/MapView.tsx:160-170 | a service echoing the waypoints gives the same line as the fallback |
| Routing.TwoPairExample | src/components/MapView.tsx:165-167 | `[[lng1,lat1],[lng2,lat2]]` becomes `[(lat1,lng1),(lat2,lng2)]` |
| MapView.StatusColor | src/components/MapView.tsx:353 | no band colour is the accent |
| MapView.SpotColor | src/components/MapView.tsx:350-353 | a handle is accent iff its id is the selected one; otherwise green iff `2a > t` and red iff `5a <= t` |
| MapView.PointMarker | src/components/MapView.tsx:284-298 | a garage or lot marker stands at its spot, selects its id, is accent iff selected, and otherwise green iff `2a > t`, red iff `5a <= t` |
| MapView.BuiltStreetLine | src/components/MapView.tsx:234-250 | a built line follows the zone and selects its id, always with weight 8 and opacity 0.8 (even when selected), accent iff selected, otherwise its band colour |
| MapView.RestyledStreetLine | src/components/MapView.tsx:352-356 | a restyled line keeps its zone and id; selected: accent, weight 10, opacity 1; otherwise weight 8, opacity 0.8 and the band colour: green iff `2a > t`, red iff `5a <= t` |
| MapView.AtMostOneAccent | src/components/MapView.tsx:330-357 | after the build and after a restyle, the accented ids are exactly the selected id if the catalog has it, else none |
| MapView.ShippedColors | src/components/MapView.tsx:17-130 | with no selection the shipped spots show p1 yellow, p2 red, p3 yellow, p4–p6 green, p7 yellow, p8 green |
| MapView.EffectiveTarget | src/components/MapView.tsx:369-374 | for a street spot the target is the exact midpoint of the zone's two points, the label anchor; otherwise the spot's own point |
| MapView.LabelAnchor | src/components/MapView.tsx:253-256 | the label anchor is equally far from both zone points in each coordinate |
| MapView.RouteFrame | src/components/MapView.tsx:385-390 | the smallest box containing current location, target and destination |
| MapView.NavigationRoute | src/components/MapView.tsx:378-383 | the route line follows the path in the accent colour, weight 5, opacity 0.8 |
| MapView.MarkerTableIs | src/components/MapView.tsx:330-344 | a table with exactly the garage and lot ids, each styled for the selection, is the marker table |
| MapView.LineTableIs | src/components/MapView.tsx:347-357 | a table with exactly the street ids, each restyled for the selection, is the line table |
| MapView.BuiltLineTableIs | src/components/MapView.tsx:233-250 | a table with exactly the street ids, each built for the selection, is the built line table |
| MapView.TablesMatch | src/components/MapView.tsx:233-300 | built and restyled handles stand where their spot is and their click selects their own id |
| MapView.BuildHandles | src/components/MapView.tsx:233-300 | the build loop makes one handle per catalog id: markers for garages and lots, lines for street spots, styled for the initial selection |
| MapView.RestyleMarkerTable | src/components/MapView.tsx:330-344 | the `setIcon` loop gives every marker the icon for the selection and its spot's band |
| MapView.RestyleLineTable | src/components/MapView.tsx:347-357 | the `setStyle` loop restyles every street line for the selection and its spot's band |
| MapView.MapSession.constructor | src/components/MapView.tsx:177-306 | the map starts at the overview with the mode's tiles, the two fixed markers, one handle per spot, no route and no loading |
| MapView.MapSession.SetViewMode | src/components/MapView.tsx:309-323 | a mode change replaces the tile layer with the mode's own |
| MapView.MapSession.Restyle | src/components/MapView.tsx:330-357 | both tables become functions of catalog and selection alone, so a second run changes nothing |
| MapView.MapSession.RestyleMarkers | src/components/MapView.tsx:330-344 | the marker table is restyled and nothing else changes |
| MapView.MapSession.RestyleStreetLines | src/components/MapView.tsx:347-357 | the line table is restyled and nothing else changes |
| MapView.MapSession.FetchRoute | src/components/MapView.tsx:153-174 | the result is the resolved route; loading is set true, then false, and ends false |
| MapView.MapSession.DrawRoute | src/components/MapView.tsx:359-394 | the old route is always removed; navigating with a known selection draws the route to the effective target and fits the three-point frame with padding 100; not navigating resets to the overview at zoom 15; navigating with no selection (or an unknown id) removes the old route and leaves the camera and loading flag |
| MapView.MapSession.Reconcile | src/components/MapView.tsx:326-397 | the selection effect: restyle, then `drawRoute`, with both effects combined |
| MapView.Mount | src/components/MapView.tsx:177-397 | a mount builds, sets tiles and reconciles: both tables restyled for the selection; when navigating to a known spot, the route drawn and framed; otherwise no route and the overview camera |
| MapRoutingUpdate.OrderMatchesKeys | src/components/map-routing-update.tsx:14-18 | the variant's three keys are distinct and the entry order lists exactly them |
| MapRoutingUpdate.MarkerColor | src/components/map-routing-update.tsx:180 | a marker is accent iff its id is selected, otherwise red; availability plays no part |
| MapRoutingUpdate.SpotMarker | src/components/map-routing-update.tsx:150-158 | a marker stands at its spot, selects its id, is accent iff selected and red otherwise |
| MapRoutingUpdate.MarkerTableIs | src/components/map-routing-update.tsx:172-197 | a table with the three ids, each styled for the selection, is the marker table, each marker at its spot and selecting its id |
| MapRoutingUpdate.AtMostOneAccent | src/components/map-routing-update.tsx:172-197 | only the selected id, if the table has it, is accented; every other marker is red |
| MapRoutingUpdate.RouteFrame | src/components/map-routing-update.tsx:222-225 | the smallest box containing current location and the spot |
| MapRoutingUpdate.NavigationRoute | src/components/map-routing-update.tsx:214-219 | the route line follows the path in the accent colour, weight 4, opacity 0.7 |
| MapRoutingUpdate.BuildMarkers | src/components/map-routing-update.tsx:126-159 | one marker per spot id, at the spot, selecting its own id, coloured for the initial selection |
| MapRoutingUpdate.VariantSession.constructor | src/components/map-routing-update.tsx:58-165 | the map starts at the overview with the mode's tiles, the current-location marker and one marker per spot, no route, no loading |
| MapRoutingUpdate.VariantSession.ReinitForViewMode | src/components/map-routing-update.tsx:58-165 | a view-mode change rebuilds the map: new tiles, overview camera, markers for the current selection, and no route even while navigating |
| MapRoutingUpdate.VariantSession.Restyle | src/components/map-routing-update.tsx:172-197 | every marker is restyled for the selection alone |
| MapRoutingUpdate.VariantSession.FetchRoute | src/components/map-routing-update.tsx:32-55 | a defined end gives the resolved route; an undefined end gives no path; loading is set true, then false |
| MapRoutingUpdate.VariantSession.DrawRoute | src/components/map-routing-update.tsx:200-228 | the old route is always removed; a route is drawn only when navigating with a known selection, to the spot's own point, framed by two points with padding 50; otherwise the camera never moves |
| MapRoutingUpdate.VariantSession.Reconcile | src/components/map-routing-update.tsx:168-231 | the selection effect: restyle, then `drawRoute` |
| MapRoutingUpdate.Mount | src/components/map-routing-update.tsx:58-231 | a mount builds and reconciles: markers restyled; when navigating to a known spot, the route drawn and framed by two points with padding 50; otherwise no route and the overview camera |
| App.Initial | src/App.tsx:7-9 | map mode, `p1` selected, not navigating |
| App.StartNavigation | src/App.tsx:11-13 | navigation on; selection and view mode unchanged; no selection check |
| App.StopNavigation | src/App.tsx:15-17 | navigation off; selection and view mode unchanged |
| App.Select | src/App.tsx:32 | the selection becomes the given id or null; nothing else changes |
| App.ChangeViewMode | src/App.tsx:23 | the view mode becomes the given one; nothing else changes |
| App.NavigationIdempotent | src/App.tsx:11-17 | repeating start, or repeating stop, gives the same state as doing it once |
| App.StopUndoesStart | src/App.tsx:11-17 | stopping after starting from a non-navigating state gives back that state |
| App.MapKey | src/App.tsx:29 | the key is `map-` followed by the mode's name |
| App.MapKeyInjective | src/App.tsx:29 | two modes give equal keys iff they are the same mode |
| App.ViewModeChangeRemounts | src/App.tsx:23-29 | a view-mode change changes the map's key, and so remounts the map, iff the mode differs |
| App.StartFromCardDraws | src/components/ParkingRecommendationCard.tsx:75 | when the card offers "Start Navigation", starting makes the map fetch and draw a route |
| App.StartWithoutSelectionDrawsNothing | src/App.tsx:11-13 | starting with no selection draws no route |
| App.AppState.constructor | src/App.tsx:7-9 | the state starts at the initial snapshot |
| App.AppState.HandleStartNavigation | src/App.tsx:11-13 | the state becomes its start-navigation successor |
| App.AppState.HandleStopNavigation | src/App.tsx:15-17 | the state becomes its stop-navigation successor |
| App.AppState.SetSelectedParkingId | src/App.tsx:38 | the state becomes its successor for the new selection, from the map or the card |
| App.AppState.SetViewMode | src/App.tsx:23 | the state becomes its successor for the new view mode |

## Left out

- Leaflet itself is not modelled: map creation, `divIcon` HTML and CSS, `addTo`, `eachLayer`, `fitBounds` animation, and `map.remove()` teardown. Handles are style records on an abstract surface.
- The "Street Parking" label markers (src/components/MapView.tsx:258-280) are not modelled. They are not interactive and no table tracks them; only their anchor appears, as `MapView.LabelAnchor`.
- The init effect's guard (`!mapRef.current || mapInstanceRef.current`) is not modelled. The constructor is the one run that builds the map.
- The variant's stale route reference, which still points at the torn-down map's polyline after a view-mode change, is not modelled: `route` is the route shown on the current map, which is none.
- The HTTP request to the routing service and JSON parsing are not modelled. Their outcome is the `RouteResponse` input, and `console.error` is dropped.
- React effect scheduling and `await` are not modelled. Each `drawRoute` runs to completion before the next begins. Two overlapping calls could each add a route layer, since nothing discards a stale result; the model cannot show that.
- IEEE floating point is not modelled: coordinates and ratios are exact reals. The midpoint `(a+b)/2` and the ratio test are therefore exact, not rounded.
- Prototype keys (`parkingSpots['toString']` and similar) are not modelled. An id is either a catalog key or missing.
- The presentational components `src/components/ParkingIcon.tsx`, `src/components/StreetParkingZone.tsx` and `src/components/TopNavigation.tsx` are not modelled, nor the rendering of `src/components/ParkingRecommendationCard.tsx`. Only the card's "Start Navigation" guard appears, as `App.OffersStart`.
- `src/data/parkingData.ts` is not part of this model. It is a static catalog that no modelled code imports.
- The loading overlay's markup is not modelled.
- The street lines' `lineCap: 'round'` (src/components/MapView.tsx:245) and the route lines' `lineJoin: 'round'` (src/components/MapView.tsx:382, src/components/map-routing-update.tsx:218) are not modelled: they change how a line is drawn, not which lines exist, where they run or how they are coloured.
- MapView.MapSession.SetViewMode: the source removes every tile layer and adds the new one. The model keeps one tile-layer value and does not count layers.
