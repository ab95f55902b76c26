/**
 * The rendering surface, abstractly: what each overlay handle currently shows, the camera and
 * the tile source. Leaflet's own objects, icons and HTML are not modelled; a handle is the
 * record of the style last given to it and the id its click handler selects.
 */
module Surface {
  import opened Wrappers
  import opened Geometry

  /** The four colours the overlays use; `Hex` gives the CSS value the source writes. */
  datatype Color = Accent | GreenStatus | YellowStatus | RedStatus

  function Hex(c: Color): string {
    match c
    case Accent => "#3b82f6"
    case GreenStatus => "#22c55e"
    case YellowStatus => "#eab308"
    case RedStatus => "#ef4444"
  }

  /** Distinct colours are distinct CSS values. */
  lemma HexInjective(c1: Color, c2: Color)
    requires c1 != c2
    ensures Hex(c1) != Hex(c2)
  {
    assert Hex(c1)[1] != Hex(c2)[1] || Hex(c1)[2] != Hex(c2)[2];
  }

  /** A point marker (a garage or lot "P" icon): where it stands, its colour, the id a click selects. */
  datatype Marker = Marker(position: Coord, color: Color, selects: string)

  /** A street-parking polyline and its `setStyle` parameters. */
  datatype StreetLine = StreetLine(path: seq<Coord>, color: Color, weight: int, opacity: real, selects: string)

  /** The route polyline: not clickable. */
  datatype RouteLine = RouteLine(path: seq<Coord>, color: Color, weight: int, opacity: real)

  /** The last camera command: `setView(center, zoom)` or `fitBounds(bounds, {padding})`. */
  datatype Camera =
    | SetView(center: Coord, zoom: int)
    | FitBounds(bounds: Bounds, paddingX: int, paddingY: int)

  /** The `viewMode` prop: `'map' | 'satellite'`. */
  datatype ViewMode = MapMode | Satellite

  /** The two tile servers; `UrlTemplate` gives the address pattern the source passes to `L.tileLayer`. */
  datatype TileServer = OpenStreetMap | WorldImagery

  function UrlTemplate(server: TileServer): string {
    match server
    case WorldImagery => "https://server.arcgisonline.com/ArcGIS/rest/services/World_Imagery/MapServer/tile/{z}/{y}/{x}"
    case OpenStreetMap => "https://{s}.tile.openstreetmap.org/{z}/{x}/{y}.png"
  }

  datatype TileLayer = TileLayer(server: TileServer, maxZoom: int)

  const OverviewZoom: int := 15

  /** The tile layer for a view mode: the imagery server for satellite, OpenStreetMap otherwise. */
  function TileLayerFor(mode: ViewMode): (t: TileLayer)
    ensures t.maxZoom == 19
    ensures t.server == WorldImagery <==> mode == Satellite
  {
    match mode
    case Satellite => TileLayer(WorldImagery, 19)
    case MapMode => TileLayer(OpenStreetMap, 19)
  }

  /** Switching the view mode switches the tile address. */
  lemma TileSourcesDiffer()
    ensures UrlTemplate(TileLayerFor(Satellite).server) != UrlTemplate(TileLayerFor(MapMode).server)
  {
    assert |UrlTemplate(WorldImagery)| != |UrlTemplate(OpenStreetMap)|;
  }

  /** `id === selectedParkingId`. */
  predicate IsSelected(id: string, selected: Option<string>) {
    selected == Some(id)
  }

  /** JavaScript truthiness of `selectedParkingId`: `null` and the empty string are falsy. */
  predicate HasSelection(selected: Option<string>) {
    selected.Some? && selected.value != ""
  }
}
