/**
 * The static catalog of parking spots, the destination and the current location
 * (src/components/MapView.tsx, top of file). The catalog is a JavaScript object: string keys
 * in declaration order (the order `Object.entries` yields) mapped to spot records.
 */
module Registry {
  import opened Wrappers
  import opened Geometry

  /** The `type` field: `'garage' | 'lot' | 'street'`. */
  datatype SpotKind = Garage | Lot | Street

  /** One catalog entry; `streetZone` is absent (`None`) on garages and lots. */
  datatype Spot = Spot(
    lat: real,
    lng: real,
    name: string,
    distance: string,
    walkToDestination: string,
    available: int,
    total: int,
    rate: string,
    kind: SpotKind,
    streetZone: Option<seq<Coord>>)

  /** The catalog object: its keys in declaration order and the key-to-spot table. */
  datatype Catalog = Catalog(order: seq<string>, spots: map<string, Spot>)

  function Position(s: Spot): Coord {
    Coord(s.lat, s.lng)
  }

  /** `spot.type === 'street' && spot.streetZone`: the spot is drawn as a line, not a marker. */
  predicate IsStreetLine(s: Spot) {
    s.kind == Street && s.streetZone.Some?
  }

  /** What every entry must satisfy: a positive total, an available count within it, and a
    * two-point zone exactly on street spots. */
  predicate SpotWellFormed(s: Spot) {
    && s.total > 0
    && 0 <= s.available <= s.total
    && (s.kind == Street <==> s.streetZone.Some?)
    && (s.streetZone.Some? ==> |s.streetZone.value| == 2)
  }

  /** Keys are unique, the order lists exactly the keys, and every entry is well formed. */
  ghost predicate WellFormed(c: Catalog) {
    && (forall i, j :: 0 <= i < j < |c.order| ==> c.order[i] != c.order[j])
    && (forall id :: id in c.spots <==> id in c.order)
    && (forall id :: id in c.spots ==> SpotWellFormed(c.spots[id]))
  }

  /** `parkingSpots[id]`: the entry, or `undefined` for a key the catalog does not have. */
  function Get(c: Catalog, id: string): (r: Option<Spot>)
    ensures r.Some? <==> id in c.spots
    ensures r.Some? ==> r.value == c.spots[id]
  {
    if id in c.spots then Some(c.spots[id]) else None
  }

  /** Ids drawn as point markers and ids drawn as street lines. */
  function MarkerIds(c: Catalog): set<string> {
    set id | id in c.spots && !IsStreetLine(c.spots[id])
  }

  function StreetLineIds(c: Catalog): set<string> {
    set id | id in c.spots && IsStreetLine(c.spots[id])
  }

  /** The two kinds of handle split the catalog's ids between them. */
  lemma IdsPartition(c: Catalog)
    ensures MarkerIds(c) !! StreetLineIds(c)
    ensures MarkerIds(c) + StreetLineIds(c) == c.spots.Keys
  {
  }

  const Destination: Coord := Coord(37.2868, -121.9490)
  const DestinationName: string := "Downtown Plaza"
  const CurrentLocation: Coord := Coord(37.2876, -121.9497)

  const ParkingSpots: Catalog := Catalog(
    ["p1", "p2", "p3", "p4", "p5", "p6", "p7", "p8"],
    map[
      "p1" := Spot(37.2872, -121.9502, "Main Street Garage", "0.3 mi", "150 m",
                   25, 50, "$2/hr", Garage, None),
      "p2" := Spot(37.2865, -121.9485, "City Center Lot", "0.4 mi", "200 m",
                   5, 30, "$3/hr", Lot, None),
      "p3" := Spot(37.2855, -121.9495, "West Avenue Street Parking", "0.5 mi", "280 m",
                   2, 8, "$1.5/hr", Street,
                   Some([Coord(37.2854, -121.9493), Coord(37.2854, -121.9497)])),
      "p4" := Spot(37.2870, -121.9488, "Oak Street Parking", "0.2 mi", "120 m",
                   4, 6, "$1/hr", Street,
                   Some([Coord(37.2871, -121.9487), Coord(37.2869, -121.9487)])),
      "p5" := Spot(37.2863, -121.9498, "Park Boulevard Parking", "0.35 mi", "180 m",
                   6, 10, "$1/hr", Street,
                   Some([Coord(37.2862, -121.9496), Coord(37.2862, -121.9500)])),
      "p6" := Spot(37.2878, -121.9495, "North Main Street Parking", "0.15 mi", "200 m",
                   8, 12, "$1.5/hr", Street,
                   Some([Coord(37.2879, -121.9494), Coord(37.2879, -121.9498)])),
      "p7" := Spot(37.2867, -121.9492, "Central Avenue Parking", "0.25 mi", "140 m",
                   3, 8, "$1/hr", Street,
                   Some([Coord(37.2868, -121.9491), Coord(37.2866, -121.9491)])),
      "p8" := Spot(37.2860, -121.9480, "East Plaza Street Parking", "0.45 mi", "160 m",
                   5, 7, "$1.5/hr", Street,
                   Some([Coord(37.2861, -121.9479), Coord(37.2859, -121.9479)]))
    ])

  /** The shipped catalog meets every registry constraint. */
  lemma ParkingSpotsWellFormed()
    ensures WellFormed(ParkingSpots)
    ensures |ParkingSpots.order| == 8
    ensures MarkerIds(ParkingSpots) == {"p1", "p2"}
    ensures StreetLineIds(ParkingSpots) == {"p3", "p4", "p5", "p6", "p7", "p8"}
  {
    OrderMatchesKeys();
    forall id | id in ParkingSpots.spots ensures SpotWellFormed(ParkingSpots.spots[id]) {
      SpotsWellFormed(id);
    }
    HandleKinds();
  }

  const Ids: set<string> := {"p1", "p2", "p3", "p4", "p5", "p6", "p7", "p8"}

  lemma OrderMatchesKeys()
    ensures |ParkingSpots.order| == 8
    ensures ParkingSpots.spots.Keys == Ids
    ensures forall i, j :: 0 <= i < j < |ParkingSpots.order| ==> ParkingSpots.order[i] != ParkingSpots.order[j]
    ensures forall id :: id in ParkingSpots.spots <==> id in ParkingSpots.order
  {
    var o := ParkingSpots.order;
    forall i | 0 <= i < |o| ensures |o[i]| == 2 && o[i][1] as int == 49 + i {
      IdDigit(i);
    }
    forall i, j | 0 <= i < j < |o| ensures o[i] != o[j] {
      assert o[i][1] != o[j][1];
    }
    forall id ensures id in ParkingSpots.spots <==> id in o {
      assert id in o <==> id in Ids;
    }
  }

  /** The key at position `i` is `p` followed by the digit `i + 1`. */
  lemma IdDigit(i: int)
    requires 0 <= i < |ParkingSpots.order|
    ensures |ParkingSpots.order[i]| == 2 && ParkingSpots.order[i][1] as int == 49 + i
  {
    var o := ParkingSpots.order;
    if i == 0 { assert o[0] == "p1"; }
    else if i == 1 { assert o[1] == "p2"; }
    else if i == 2 { assert o[2] == "p3"; }
    else if i == 3 { assert o[3] == "p4"; }
    else if i == 4 { assert o[4] == "p5"; }
    else if i == 5 { assert o[5] == "p6"; }
    else if i == 6 { assert o[6] == "p7"; }
    else { assert o[7] == "p8"; }
  }

  lemma HandleKinds()
    ensures MarkerIds(ParkingSpots) == {"p1", "p2"}
    ensures StreetLineIds(ParkingSpots) == {"p3", "p4", "p5", "p6", "p7", "p8"}
  {
    var markers, lines := MarkerIds(ParkingSpots), StreetLineIds(ParkingSpots);
    forall id | id in markers ensures id in {"p1", "p2"} { SpotsWellFormed(id); }
    forall id | id in {"p1", "p2"} ensures id in markers { KindOf(id); }
    forall id | id in lines ensures id in {"p3", "p4", "p5", "p6", "p7", "p8"} { SpotsWellFormed(id); }
    forall id | id in {"p3", "p4", "p5", "p6", "p7", "p8"} ensures id in lines { KindOf(id); }
  }

  lemma KindOf(id: string)
    requires id in Ids
    ensures id in ParkingSpots.spots
    ensures IsStreetLine(ParkingSpots.spots[id]) <==> id != "p1" && id != "p2"
  {
    SpotsWellFormed(id);
  }

  lemma SpotsWellFormed(id: string)
    requires id in ParkingSpots.spots
    ensures SpotWellFormed(ParkingSpots.spots[id])
    ensures IsStreetLine(ParkingSpots.spots[id]) <==> id != "p1" && id != "p2"
  {
    var m := ParkingSpots.spots;
    if id == "p1" { assert m[id].total == 50; }
    else if id == "p2" { assert m[id].total == 30; }
    else if id == "p3" { assert m[id].total == 8; }
    else if id == "p4" { assert m[id].total == 6; }
    else if id == "p5" { assert m[id].total == 10; }
    else if id == "p6" { assert m[id].total == 12; }
    else if id == "p7" { assert m[id].total == 8; }
    else { assert id == "p8"; assert m[id].total == 7; }
  }
}
