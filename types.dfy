/** The record shapes of src/types/index.ts that the core uses, the by-id lookup
    shared by the service and the detail view, and the magnitude scale the views share. */
module Types {

  datatype Option<T> = None | Some(value: T)

  /** `'AFAD' | 'Kandilli'`; only Kandilli records are ever produced by this code. */
  datatype Source = AFAD | Kandilli

  /** The `Earthquake` interface. `isAnomaly?` is a boolean whose absence reads as
      false everywhere it is used; `anomalyScore?` may be absent (None). */
  datatype Earthquake = Earthquake(
    id: string,
    date: string,
    time: string,
    latitude: real,
    longitude: real,
    magnitude: real,
    depth: real,
    location: string,
    province: Option<string>,
    district: Option<string>,
    source: Source,
    timestamp: int,
    isAnomaly: bool,
    anomalyScore: Option<real>)

  /** `Partial<Earthquake>`: a field is present (Some) or not supplied (None). */
  datatype EarthquakePatch = EarthquakePatch(
    id: Option<string>,
    date: Option<string>,
    time: Option<string>,
    latitude: Option<real>,
    longitude: Option<real>,
    magnitude: Option<real>,
    depth: Option<real>,
    location: Option<string>,
    province: Option<Option<string>>,
    district: Option<Option<string>>,
    source: Option<Source>,
    timestamp: Option<int>,
    isAnomaly: Option<bool>,
    anomalyScore: Option<Option<real>>)

  function Pick<T>(patched: Option<T>, current: T): T
  {
    if patched.Some? then patched.value else current
  }

  /** `{ ...eq, ...updates }`: supplied fields win, the rest are kept. */
  function Merge(e: Earthquake, p: EarthquakePatch): Earthquake
  {
    Earthquake(
      Pick(p.id, e.id), Pick(p.date, e.date), Pick(p.time, e.time),
      Pick(p.latitude, e.latitude), Pick(p.longitude, e.longitude),
      Pick(p.magnitude, e.magnitude), Pick(p.depth, e.depth),
      Pick(p.location, e.location), Pick(p.province, e.province),
      Pick(p.district, e.district), Pick(p.source, e.source),
      Pick(p.timestamp, e.timestamp), Pick(p.isAnomaly, e.isAnomaly),
      Pick(p.anomalyScore, e.anomalyScore))
  }

  /** The patch that supplies nothing. */
  const NoChanges: EarthquakePatch :=
    EarthquakePatch(None, None, None, None, None, None, None, None, None, None, None, None, None, None)

  /** Spreading an empty patch keeps the record, spreading the same patch a second
      time changes nothing more, and every field the patch supplies takes the supplied
      value while every other field keeps the record's. */
  lemma MergeLaws(e: Earthquake, p: EarthquakePatch)
    ensures Merge(e, NoChanges) == e
    ensures Merge(Merge(e, p), p) == Merge(e, p)
    ensures p.id.Some? ==> Merge(e, p).id == p.id.value
    ensures p.id.None? ==> Merge(e, p).id == e.id
    ensures p.date.Some? ==> Merge(e, p).date == p.date.value
    ensures p.date.None? ==> Merge(e, p).date == e.date
    ensures p.time.Some? ==> Merge(e, p).time == p.time.value
    ensures p.time.None? ==> Merge(e, p).time == e.time
    ensures p.latitude.Some? ==> Merge(e, p).latitude == p.latitude.value
    ensures p.latitude.None? ==> Merge(e, p).latitude == e.latitude
    ensures p.longitude.Some? ==> Merge(e, p).longitude == p.longitude.value
    ensures p.longitude.None? ==> Merge(e, p).longitude == e.longitude
    ensures p.magnitude.Some? ==> Merge(e, p).magnitude == p.magnitude.value
    ensures p.magnitude.None? ==> Merge(e, p).magnitude == e.magnitude
    ensures p.depth.Some? ==> Merge(e, p).depth == p.depth.value
    ensures p.depth.None? ==> Merge(e, p).depth == e.depth
    ensures p.location.Some? ==> Merge(e, p).location == p.location.value
    ensures p.location.None? ==> Merge(e, p).location == e.location
    ensures p.province.Some? ==> Merge(e, p).province == p.province.value
    ensures p.province.None? ==> Merge(e, p).province == e.province
    ensures p.district.Some? ==> Merge(e, p).district == p.district.value
    ensures p.district.None? ==> Merge(e, p).district == e.district
    ensures p.source.Some? ==> Merge(e, p).source == p.source.value
    ensures p.source.None? ==> Merge(e, p).source == e.source
    ensures p.timestamp.Some? ==> Merge(e, p).timestamp == p.timestamp.value
    ensures p.timestamp.None? ==> Merge(e, p).timestamp == e.timestamp
    ensures p.isAnomaly.Some? ==> Merge(e, p).isAnomaly == p.isAnomaly.value
    ensures p.isAnomaly.None? ==> Merge(e, p).isAnomaly == e.isAnomaly
    ensures p.anomalyScore.Some? ==> Merge(e, p).anomalyScore == p.anomalyScore.value
    ensures p.anomalyScore.None? ==> Merge(e, p).anomalyScore == e.anomalyScore
  {
  }

  /** `list.find(eq => eq.id === id)`: the first record with that id, or nothing. */
  function FindById(list: seq<Earthquake>, id: string): (r: Option<Earthquake>)
    ensures r.None? <==> forall i :: 0 <= i < |list| ==> list[i].id != id
    ensures r.Some? ==> exists i :: 0 <= i < |list| && list[i] == r.value && r.value.id == id
                                    && forall j :: 0 <= j < i ==> list[j].id != id
    decreases |list|
  {
    if list == [] then None
    else if list[0].id == id then Some(list[0])
    else
      var r := FindById(list[1..], id);
      assert r.Some? ==> exists i :: 1 <= i < |list| && list[i] == r.value && r.value.id == id
                                     && forall j :: 0 <= j < i ==> list[j].id != id
        by {
        if r.Some? {
          var k :| 0 <= k < |list[1..]| && list[1..][k] == r.value && r.value.id == id
                   && forall j :: 0 <= j < k ==> list[1..][j].id != id;
          assert list[k + 1] == r.value;
        }
      }
      r
  }

  /** `MapConfig`: `center` is `[lat, lng]`. */
  datatype MapConfig = MapConfig(center: (real, real), zoom: real, minZoom: real, maxZoom: real)

  /** The five magnitude classes used by the colour functions and the analytics
      histogram: `<3`, `3-4`, `4-5`, `5-6`, `≥6`, each lower bound inclusive. */
  datatype Band = Below3 | From3To4 | From4To5 | From5To6 | AtLeast6

  /** The interval each band covers. */
  predicate InBand(m: real, b: Band)
  {
    match b
    case Below3 => m < 3.0
    case From3To4 => 3.0 <= m < 4.0
    case From4To5 => 4.0 <= m < 5.0
    case From5To6 => 5.0 <= m < 6.0
    case AtLeast6 => 6.0 <= m
  }

  /** The bands partition the magnitude line: every magnitude lies in exactly one. */
  lemma BandsPartition(m: real)
    ensures exists b :: InBand(m, b)
    ensures forall b1, b2 :: InBand(m, b1) && InBand(m, b2) ==> b1 == b2
  {
    if m < 3.0 { assert InBand(m, Below3); }
    else if m < 4.0 { assert InBand(m, From3To4); }
    else if m < 5.0 { assert InBand(m, From4To5); }
    else if m < 6.0 { assert InBand(m, From5To6); }
    else { assert InBand(m, AtLeast6); }
  }
}
