/**
 * The pure part of `fetchRoute`, shared by both map components: the request's waypoints, the
 * routing service's answer as an input, and the route the function resolves to. The HTTP call
 * and JSON parsing are not modelled; their outcome is the `RouteResponse` value.
 */
module Routing {
  import opened Wrappers
  import opened Geometry

  /**
   * What the request produced. `NetworkError`: `fetch` rejected. `Received(ok, body)`: a response
   * with its `ok` flag and, when the body parsed and had a `routes` array whose entries carry
   * `geometry.coordinates`, those coordinate lists in the service's `[lng, lat]` order; `None`
   * when `response.json()` or that property path failed.
   */
  datatype RouteResponse =
    | NetworkError
    | Received(ok: bool, body: Option<seq<seq<LngLat>>>)

  /** The waypoints in the order the request URL writes them: `start.lng,start.lat;end.lng,end.lat`. */
  function Waypoints(start: Coord, end: Coord): (w: seq<LngLat>)
    ensures |w| == 2 && w[0] == ToLngLat(start) && w[1] == ToLngLat(end)
  {
    [LngLat(start.lng, start.lat), LngLat(end.lng, end.lat)]
  }

  /** The try block runs to its `return`: an ok response whose first route exists. */
  predicate Succeeds(response: RouteResponse) {
    response.Received? && response.ok && response.body.Some? && |response.body.value| > 0
  }

  /** `data.routes[0].geometry.coordinates`. */
  function FirstRoute(response: RouteResponse): seq<LngLat>
    requires Succeeds(response)
  {
    response.body.value[0]
  }

  /** The straight line the catch block returns: `[[start.lat, start.lng], [end.lat, end.lng]]`. */
  function Fallback(start: Coord, end: Coord): (line: seq<Coord>)
    ensures |line| == 2 && line[0] == start && line[1] == end
  {
    [start, end]
  }

  /**
   * What `fetchRoute(start, end)` resolves to. A non-ok status (thrown), a rejected fetch, an
   * unparsable body and a missing `routes[0]` (a TypeError) all land in the catch block.
   */
  function ResolveRoute(start: Coord, end: Coord, response: RouteResponse): (path: seq<Coord>)
    ensures Succeeds(response) ==> |path| == |FirstRoute(response)|
    ensures Succeeds(response) ==> forall i :: 0 <= i < |path| ==>
              path[i].lat == FirstRoute(response)[i].lat && path[i].lng == FirstRoute(response)[i].lng
    ensures !Succeeds(response) ==> |path| == 2 && path[0] == start && path[1] == end
  {
    match response
    case NetworkError => Fallback(start, end)
    case Received(ok, body) =>
      if !ok then Fallback(start, end)
      else if body.None? || |body.value| == 0 then Fallback(start, end)
      else Transpose(body.value[0])
  }

  /** A service that answers with the request's own waypoints yields exactly the fallback line. */
  lemma EchoedWaypointsGiveFallback(start: Coord, end: Coord)
    ensures ResolveRoute(start, end, Received(true, Some([Waypoints(start, end)]))) == Fallback(start, end)
  {
    var path := ResolveRoute(start, end, Received(true, Some([Waypoints(start, end)])));
    assert path[0] == start && path[1] == end;
  }

  /** The example of a two-pair geometry: `[[lng1, lat1], [lng2, lat2]]` becomes `[(lat1, lng1), (lat2, lng2)]`. */
  lemma TwoPairExample(start: Coord, end: Coord, lng1: real, lat1: real, lng2: real, lat2: real)
    ensures ResolveRoute(start, end, Received(true, Some([[LngLat(lng1, lat1), LngLat(lng2, lat2)]])))
            == [Coord(lat1, lng1), Coord(lat2, lng2)]
  {
    var path := ResolveRoute(start, end, Received(true, Some([[LngLat(lng1, lat1), LngLat(lng2, lat2)]])));
    assert path[0] == Coord(lat1, lng1) && path[1] == Coord(lat2, lng2);
  }
}
