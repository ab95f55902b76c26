/**
 * Coordinates, the transposition between the routing service's order and the map's order,
 * midpoints and bounding boxes. Coordinates are exact reals: IEEE rounding is not modelled.
 */
module Geometry {

  /** A point in the order the map surface takes it: `[lat, lng]`. */
  datatype Coord = Coord(lat: real, lng: real)

  /** A position in the order the routing service writes it: `[lng, lat]`. */
  datatype LngLat = LngLat(lng: real, lat: real)

  /** `coordinates.map(coord => [coord[1], coord[0]])`: every pair swapped, length and order kept. */
  function Transpose(coords: seq<LngLat>): (r: seq<Coord>)
    ensures |r| == |coords|
    ensures forall i :: 0 <= i < |coords| ==> r[i].lat == coords[i].lat && r[i].lng == coords[i].lng
  {
    if coords == [] then [] else [Coord(coords[0].lat, coords[0].lng)] + Transpose(coords[1..])
  }

  /** The inverse direction, used to state that the transposition loses nothing. */
  function ToLngLat(p: Coord): LngLat {
    LngLat(p.lng, p.lat)
  }

  lemma {:induction false} TransposeInverse(path: seq<Coord>)
    ensures Transpose(seq(|path|, i requires 0 <= i < |path| => ToLngLat(path[i]))) == path
  {
    var wire := seq(|path|, i requires 0 <= i < |path| => ToLngLat(path[i]));
    var r := Transpose(wire);
    assert |r| == |path|;
    forall i | 0 <= i < |path| ensures r[i] == path[i] {
      assert wire[i] == ToLngLat(path[i]);
    }
  }

  /** Component-wise mean of two points: `{lat: (a.lat + b.lat) / 2, lng: (a.lng + b.lng) / 2}`. */
  function Midpoint(a: Coord, b: Coord): (m: Coord)
    ensures m.lat - a.lat == b.lat - m.lat && m.lng - a.lng == b.lng - m.lng
    ensures Min(a.lat, b.lat) <= m.lat <= Max(a.lat, b.lat)
    ensures Min(a.lng, b.lng) <= m.lng <= Max(a.lng, b.lng)
  {
    Coord((a.lat + b.lat) / 2.0, (a.lng + b.lng) / 2.0)
  }

  function Min(x: real, y: real): real { if x <= y then x else y }
  function Max(x: real, y: real): real { if x <= y then y else x }

  /** An axis-aligned box, as `L.latLngBounds` keeps it (south-west and north-east corners). */
  datatype Bounds = Bounds(south: real, west: real, north: real, east: real)

  predicate Contains(b: Bounds, p: Coord) {
    b.south <= p.lat <= b.north && b.west <= p.lng <= b.east
  }

  /**
   * `bounds.extend(p)`: a box holding `b` and `p`, inside every box that holds `b`'s two
   * corners and `p`.
   */
  function Extend(b: Bounds, p: Coord): (e: Bounds)
    ensures Contains(e, p)
    ensures forall q :: Contains(b, q) ==> Contains(e, q)
    ensures forall other: Bounds ::
              (Contains(other, Coord(b.south, b.west)) && Contains(other, Coord(b.north, b.east)) && Contains(other, p)) ==>
              other.south <= e.south && e.north <= other.north && other.west <= e.west && e.east <= other.east
  {
    Bounds(Min(b.south, p.lat), Min(b.west, p.lng), Max(b.north, p.lat), Max(b.east, p.lng))
  }

  /**
   * `L.latLngBounds(points)`: starts from the first point and extends by each following one.
   * The result holds every point and each of its four edges is touched by one of them, so it
   * is the smallest such box.
   */
  function BoundsOf(ps: seq<Coord>): (b: Bounds)
    requires |ps| > 0
    ensures forall i :: 0 <= i < |ps| ==> Contains(b, ps[i])
    ensures exists i :: 0 <= i < |ps| && ps[i].lat == b.south
    ensures exists i :: 0 <= i < |ps| && ps[i].lng == b.west
    ensures exists i :: 0 <= i < |ps| && ps[i].lat == b.north
    ensures exists i :: 0 <= i < |ps| && ps[i].lng == b.east
    decreases |ps|
  {
    if |ps| == 1 then Bounds(ps[0].lat, ps[0].lng, ps[0].lat, ps[0].lng)
    else Extend(BoundsOf(ps[..|ps| - 1]), ps[|ps| - 1])
  }

  /** Every box that holds all the points also holds `BoundsOf` them. */
  lemma BoundsOfIsSmallest(ps: seq<Coord>, other: Bounds)
    requires |ps| > 0
    requires forall i :: 0 <= i < |ps| ==> Contains(other, ps[i])
    ensures other.south <= BoundsOf(ps).south && BoundsOf(ps).north <= other.north
    ensures other.west <= BoundsOf(ps).west && BoundsOf(ps).east <= other.east
  {
    var b := BoundsOf(ps);
    var s :| 0 <= s < |ps| && ps[s].lat == b.south;
    var w :| 0 <= w < |ps| && ps[w].lng == b.west;
    var n :| 0 <= n < |ps| && ps[n].lat == b.north;
    var e :| 0 <= e < |ps| && ps[e].lng == b.east;
    assert Contains(other, ps[s]) && Contains(other, ps[w]) && Contains(other, ps[n]) && Contains(other, ps[e]);
  }
}
