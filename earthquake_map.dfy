/** The map component (src/components/EarthquakeMap.tsx): marker colours, the tile
    layer and its attribution, the map configuration reported after a move or zoom,
    and the marker click that selects a record. */
module QuakeMap {
  import opened Types
  import UiState
  import ListView

  /** `getMarkerColor`. */
  function MarkerColor(mag: real): string
  {
    if mag >= 6.0 then "#dc2626"
    else if mag >= 5.0 then "#ea580c"
    else if mag >= 4.0 then "#f59e0b"
    else if mag >= 3.0 then "#10b981"
    else "#6b7280"
  }

  /** The marker colour of each band. */
  function BandHex(b: Band): string
  {
    match b
    case AtLeast6 => "#dc2626"
    case From5To6 => "#ea580c"
    case From4To5 => "#f59e0b"
    case From3To4 => "#10b981"
    case Below3 => "#6b7280"
  }

  /** A magnitude gets a band's marker colour exactly when it lies in that band. */
  lemma MarkerColorBands(mag: real, b: Band)
    ensures MarkerColor(mag) == BandHex(b) <==> InBand(mag, b)
  {
  }

  /** The map and the list draw their band boundaries in the same places: two
      magnitudes share a marker colour exactly when they share a list colour. */
  lemma MarkerAndListAgree(m1: real, m2: real)
    ensures MarkerColor(m1) == MarkerColor(m2) <==> ListView.ListColor(m1) == ListView.ListColor(m2)
  {
    BandsPartition(m1);
    BandsPartition(m2);
    var b1 :| InBand(m1, b1);
    var b2 :| InBand(m2, b2);
    MarkerColorBands(m1, b1);
    MarkerColorBands(m2, b2);
    ListView.ListColorBands(m1, b1);
    ListView.ListColorBands(m2, b2);
    MarkerColorBands(m2, b1);
    ListView.ListColorBands(m2, b1);
  }

  /** `tileLayers[selectedTileLayer]`: a URL for the three known layers, undefined
      otherwise. The layer name only ever comes from the selector's three items or the
      initial `'osm'`; an inherited property name such as `constructor`, which the
      JavaScript lookup would also find, cannot reach it and is not modelled. */
  function TileUrl(layer: string): (r: Option<string>)
    ensures r.Some? <==> layer in {"osm", "satellite", "terrain"}
  {
    if layer == "osm" then Some("https://{s}.tile.openstreetmap.org/{z}/{x}/{y}.png")
    else if layer == "satellite" then
      Some("https://server.arcgisonline.com/ArcGIS/rest/services/World_Imagery/MapServer/tile/{z}/{y}/{x}")
    else if layer == "terrain" then Some("https://{s}.tile.opentopomap.org/{z}/{x}/{y}.png")
    else None
  }

  /** The attribution of the tile layer: OpenStreetMap for `osm`, Esri for
      `satellite`, OpenTopoMap for every other name. */
  function Attribution(layer: string): (r: string)
    ensures layer == "osm" <==> r == "© OpenStreetMap contributors"
    ensures layer == "satellite" <==> r == "© Esri"
    ensures layer != "osm" && layer != "satellite" <==> r == "© OpenTopoMap"
  {
    if layer == "osm" then "© OpenStreetMap contributors"
    else if layer == "satellite" then "© Esri"
    else "© OpenTopoMap"
  }

  /** The configuration built after `moveend` or `zoomend`: the map's centre and
      zoom, with the zoom limits fixed at 5 and 18. */
  function ConfigOnMove(lat: real, lng: real, zoom: real): (c: MapConfig)
    ensures c.center == (lat, lng) && c.zoom == zoom
    ensures c.minZoom == 5.0 && c.maxZoom == 18.0
  {
    MapConfig((lat, lng), zoom, 5.0, 18.0)
  }

  /** The move handler: it reports the configuration to the optional callback (the
      returned value) and merges it into the UI-state store, where it replaces the
      previous configuration completely. */
  method HandleMapMove(app: UiState.AppStore, lat: real, lng: real, zoom: real) returns (config: MapConfig)
    modifies app`mapConfig
    ensures config == ConfigOnMove(lat, lng, zoom)
    ensures app.mapConfig == config
  {
    config := ConfigOnMove(lat, lng, zoom);
    app.UpdateMapConfig(UiState.FullPatch(config));
  }

  /** A marker click selects its record in the UI-state store. */
  method HandleEarthquakeClick(app: UiState.AppStore, e: Earthquake)
    modifies app`selectedEarthquake
    ensures app.selectedEarthquake == Some(e.id)
  {
    app.SetSelectedEarthquake(Some(e.id));
  }
}
