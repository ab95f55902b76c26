/**
 * The application shell (src/App.tsx): three pieces of state and the handlers that overwrite
 * them, and the key that gives the map a fresh session for each view mode.
 */
module App {
  import opened Wrappers
  import opened Registry
  import opened Surface
  import MapView

  /** The three `useState` values at one moment. */
  datatype Snapshot = Snapshot(viewMode: ViewMode, selectedParkingId: Option<string>, isNavigating: bool)

  /** The state of the first render: map tiles, `p1` selected, not navigating. */
  function Initial(): (s: Snapshot)
    ensures s.viewMode == MapMode && s.selectedParkingId == Some("p1") && !s.isNavigating
  {
    Snapshot(MapMode, Some("p1"), false)
  }

  /** `handleStartNavigation`: navigation on, with no check of the selection. */
  function StartNavigation(s: Snapshot): (t: Snapshot)
    ensures t.isNavigating
    ensures t.viewMode == s.viewMode && t.selectedParkingId == s.selectedParkingId
  {
    s.(isNavigating := true)
  }

  /** `handleStopNavigation`: navigation off; the selection stays. */
  function StopNavigation(s: Snapshot): (t: Snapshot)
    ensures !t.isNavigating
    ensures t.viewMode == s.viewMode && t.selectedParkingId == s.selectedParkingId
  {
    s.(isNavigating := false)
  }

  /** `setSelectedParkingId`, as the map's `onParkingSelect` and the card's `onSelect`. */
  function Select(s: Snapshot, id: Option<string>): (t: Snapshot)
    ensures t.selectedParkingId == id
    ensures t.viewMode == s.viewMode && t.isNavigating == s.isNavigating
  {
    s.(selectedParkingId := id)
  }

  /** `setViewMode`, as the top bar's `onViewModeChange`. */
  function ChangeViewMode(s: Snapshot, mode: ViewMode): (t: Snapshot)
    ensures t.viewMode == mode
    ensures t.selectedParkingId == s.selectedParkingId && t.isNavigating == s.isNavigating
  {
    s.(viewMode := mode)
  }

  /** Pressing start twice, or stop twice, is the same as pressing it once. */
  lemma NavigationIdempotent(s: Snapshot)
    ensures StartNavigation(StartNavigation(s)) == StartNavigation(s)
    ensures StopNavigation(StopNavigation(s)) == StopNavigation(s)
  {
  }

  /** Stopping after starting gives back the state before the start, selection included. */
  lemma StopUndoesStart(s: Snapshot)
    requires !s.isNavigating
    ensures StopNavigation(StartNavigation(s)) == s
  {
  }

  /** The string form of a view mode. */
  function ModeName(mode: ViewMode): string {
    match mode
    case MapMode => "map"
    case Satellite => "satellite"
  }

  /** `map-${viewMode}`: the key under which React keeps one `MapView` instance. */
  function MapKey(mode: ViewMode): (k: string)
    ensures |k| > 4 && k[..4] == "map-" && k[4..] == ModeName(mode)
  {
    "map-" + ModeName(mode)
  }

  /** Distinct view modes give distinct keys, so a mode change remounts the map. */
  lemma MapKeyInjective(m1: ViewMode, m2: ViewMode)
    ensures MapKey(m1) == MapKey(m2) <==> m1 == m2
  {
    if m1 != m2 {
      assert |MapKey(m1)| != |MapKey(m2)|;
    }
  }

  /**
   * A view-mode change gives the map a new key, and with it a new session, exactly when the
   * mode differs from the current one.
   */
  lemma ViewModeChangeRemounts(s: Snapshot, mode: ViewMode)
    ensures MapKey(ChangeViewMode(s, mode).viewMode) != MapKey(s.viewMode) <==> mode != s.viewMode
  {
    MapKeyInjective(mode, s.viewMode);
  }

  /**
   * The card offers "Start Navigation" while it is shown (not navigating) and its lookup of
   * the selection finds a spot.
   */
  predicate OffersStart(s: Snapshot) {
    !s.isNavigating && HasSelection(s.selectedParkingId) && s.selectedParkingId.value in ParkingSpots.spots
  }

  /** Starting from the card's button always leads the map to fetch and draw a route. */
  lemma StartFromCardDraws(s: Snapshot)
    requires OffersStart(s)
    ensures MapView.Draws(ParkingSpots, StartNavigation(s).selectedParkingId, StartNavigation(s).isNavigating)
  {
  }

  /** Starting with no selection, which the card never allows, would draw nothing. */
  lemma StartWithoutSelectionDrawsNothing(s: Snapshot)
    requires !HasSelection(s.selectedParkingId)
    ensures !MapView.Draws(ParkingSpots, StartNavigation(s).selectedParkingId, StartNavigation(s).isNavigating)
  {
  }

  /** The component's state, overwritten by its handlers. */
  class AppState {
    var viewMode: ViewMode
    var selectedParkingId: Option<string>
    var isNavigating: bool

    function State(): Snapshot
      reads this
    {
      Snapshot(viewMode, selectedParkingId, isNavigating)
    }

    constructor ()
      ensures State() == Initial()
    {
      viewMode := MapMode;
      selectedParkingId := Some("p1");
      isNavigating := false;
    }

    method HandleStartNavigation()
      modifies this`isNavigating
      ensures State() == StartNavigation(old(State()))
    {
      isNavigating := true;
    }

    method HandleStopNavigation()
      modifies this`isNavigating
      ensures State() == StopNavigation(old(State()))
    {
      isNavigating := false;
    }

    method SetSelectedParkingId(id: Option<string>)
      modifies this`selectedParkingId
      ensures State() == Select(old(State()), id)
    {
      selectedParkingId := id;
    }

    method SetViewMode(mode: ViewMode)
      modifies this`viewMode
      ensures State() == ChangeViewMode(old(State()), mode)
    {
      viewMode := mode;
    }
  }
}
