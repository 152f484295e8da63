/** The UI-state store of src/stores/app.ts: loading and error flags, connection
    status, map configuration, panel toggles, selection and view mode. Each action
    overwrites the fields named in its frame and nothing else. */
module UiState {
  import opened Types

  datatype ConnectionStatus = Connected | Disconnected | Connecting

  datatype ViewMode = MapMode | ListMode | AnalyticsMode

  /** `Partial<MapConfig>`. */
  datatype MapConfigPatch = MapConfigPatch(
    center: Option<(real, real)>,
    zoom: Option<real>,
    minZoom: Option<real>,
    maxZoom: Option<real>)

  /** Centred on Ankara, zoom 6, zoom limits 5 to 18. */
  const InitialMapConfig: MapConfig := MapConfig((39.9334, 32.8597), 6.0, 5.0, 18.0)

  /** `{ ...state.mapConfig, ...config }`. */
  function MergeMapConfig(c: MapConfig, p: MapConfigPatch): MapConfig
  {
    MapConfig(Pick(p.center, c.center), Pick(p.zoom, c.zoom),
              Pick(p.minZoom, c.minZoom), Pick(p.maxZoom, c.maxZoom))
  }

  /** A patch that supplies every field. */
  function FullPatch(c: MapConfig): MapConfigPatch
  {
    MapConfigPatch(Some(c.center), Some(c.zoom), Some(c.minZoom), Some(c.maxZoom))
  }

  /** Merging a complete configuration replaces the old one whatever it was; merging
      a patch with nothing in it keeps it. */
  lemma MergeMapConfigLaws(prev: MapConfig, c: MapConfig)
    ensures MergeMapConfig(prev, FullPatch(c)) == c
    ensures MergeMapConfig(prev, MapConfigPatch(None, None, None, None)) == prev
  {
  }

  class AppStore {
    var isLoading: bool
    var error: Option<string>
    /** `lastUpdate`, as an instant, or null. */
    var lastUpdate: Option<int>
    var connectionStatus: ConnectionStatus
    var mapConfig: MapConfig
    var sidebarOpen: bool
    var filtersOpen: bool
    var selectedEarthquake: Option<string>
    var viewMode: ViewMode

    constructor ()
      ensures !isLoading && error == None && lastUpdate == None
      ensures connectionStatus == Disconnected && mapConfig == InitialMapConfig
      ensures !sidebarOpen && !filtersOpen && selectedEarthquake == None && viewMode == MapMode
    {
      isLoading := false;
      error := None;
      lastUpdate := None;
      connectionStatus := Disconnected;
      mapConfig := InitialMapConfig;
      sidebarOpen := false;
      filtersOpen := false;
      selectedEarthquake := None;
      viewMode := MapMode;
    }

    /** `useIsConnected`. */
    predicate IsConnected()
      reads this
    {
      connectionStatus == Connected
    }

    /** `useHasError`. */
    predicate HasError()
      reads this
    {
      error.Some?
    }

    /** `useIsMapView`. */
    predicate IsMapView()
      reads this
    {
      viewMode == MapMode
    }

    method SetLoading(loading: bool)
      modifies this`isLoading
      ensures isLoading == loading
    {
      isLoading := loading;
    }

    method SetError(err: Option<string>)
      modifies this`error
      ensures error == err
      ensures HasError() <==> err.Some?
    {
      error := err;
    }

    method ClearError()
      modifies this`error
      ensures error == None && !HasError()
    {
      error := None;
    }

    method SetConnectionStatus(status: ConnectionStatus)
      modifies this`connectionStatus
      ensures connectionStatus == status
      ensures IsConnected() <==> status == Connected
    {
      connectionStatus := status;
    }

    /** `updateMapConfig`: supplied map fields are replaced, the others kept. */
    method UpdateMapConfig(patch: MapConfigPatch)
      modifies this`mapConfig
      ensures patch.center.Some? ==> mapConfig.center == patch.center.value
      ensures patch.center.None? ==> mapConfig.center == old(mapConfig.center)
      ensures patch.zoom.Some? ==> mapConfig.zoom == patch.zoom.value
      ensures patch.zoom.None? ==> mapConfig.zoom == old(mapConfig.zoom)
      ensures patch.minZoom.Some? ==> mapConfig.minZoom == patch.minZoom.value
      ensures patch.minZoom.None? ==> mapConfig.minZoom == old(mapConfig.minZoom)
      ensures patch.maxZoom.Some? ==> mapConfig.maxZoom == patch.maxZoom.value
      ensures patch.maxZoom.None? ==> mapConfig.maxZoom == old(mapConfig.maxZoom)
    {
      mapConfig := MergeMapConfig(mapConfig, patch);
    }

    method ResetMapConfig()
      modifies this`mapConfig
      ensures mapConfig == InitialMapConfig
      ensures mapConfig.center == (39.9334, 32.8597) && mapConfig.zoom == 6.0
      ensures mapConfig.minZoom == 5.0 && mapConfig.maxZoom == 18.0
    {
      mapConfig := InitialMapConfig;
    }

    method ToggleSidebar()
      modifies this`sidebarOpen
      ensures sidebarOpen == !old(sidebarOpen)
    {
      sidebarOpen := !sidebarOpen;
    }

    method ToggleFilters()
      modifies this`filtersOpen
      ensures filtersOpen == !old(filtersOpen)
    {
      filtersOpen := !filtersOpen;
    }

    method SetSelectedEarthquake(id: Option<string>)
      modifies this`selectedEarthquake
      ensures selectedEarthquake == id
    {
      selectedEarthquake := id;
    }

    method SetViewMode(mode: ViewMode)
      modifies this`viewMode
      ensures viewMode == mode
      ensures IsMapView() <==> mode == MapMode
    {
      viewMode := mode;
    }

    /** `updateLastUpdate`, with the clock reading `now` passed in. */
    method UpdateLastUpdate(now: int)
      modifies this`lastUpdate
      ensures lastUpdate == Some(now)
    {
      lastUpdate := Some(now);
    }
  }

  /** Either toggle pressed twice restores the panel it controls and touches nothing else. */
  method ToggleTwice(app: AppStore)
    modifies app`sidebarOpen, app`filtersOpen
    ensures app.sidebarOpen == old(app.sidebarOpen) && app.filtersOpen == old(app.filtersOpen)
  {
    app.ToggleSidebar();
    app.ToggleSidebar();
    app.ToggleFilters();
    app.ToggleFilters();
  }
}
