/** The Kandilli service of src/services/earthquakeService.ts: the record normaliser,
    the anomaly heuristic, the three fetches (with the HTTP response as an input) and
    the cached list that `getEarthquakeById` reads. */
module QuakeService {
  import opened Types
  import opened Seqs
  import opened Sorting
  import opened Text

  /** One entry of the payload's `result` array, reduced to the fields the normaliser
      reads. `coordinates` is GeoJSON order, `(longitude, latitude)`;
      `epiCenterName` is `location_properties.epiCenter?.name`. */
  datatype RawEarthquake = RawEarthquake(
    earthquakeId: string,
    title: string,
    date: string,
    mag: real,
    depth: real,
    coordinates: (real, real),
    epiCenterName: Option<string>,
    createdAt: int)

  /** What the request produced: a parsed body, or an exception (network error,
      timeout, or a body the normaliser cannot read). */
  datatype Response = Body(status: bool, desc: string, result: seq<RawEarthquake>) | Thrown

  predicate Succeeded(response: Response)
  {
    response.Body? && response.status
  }

  const DefaultTime: string := "00:00:00"
  const UnknownLocation: string := "Bilinmeyen Konum"
  /** `24 * 60 * 60 * 1000`. */
  const DayMillis: int := 86400000

  // ---------------------------------------------------------------------------
  // Anomaly heuristic
  // ---------------------------------------------------------------------------

  predicate IsAnomalous(mag: real, depth: real)
  {
    mag > 5.0 && depth < 10.0
  }

  function AnomalyScore(mag: real, depth: real): real
  {
    if IsAnomalous(mag, depth) then (mag * 10.0 + (100.0 - depth)) / 2.0 else 0.0
  }

  /** An anomalous event always scores above 70, so its score is never the falsy 0. */
  lemma AnomalyScoreAbove70(mag: real, depth: real)
    requires IsAnomalous(mag, depth)
    ensures AnomalyScore(mag, depth) > 70.0
  {
  }

  /** The flag and score of a record agree with the heuristic. */
  predicate AnomalyConsistent(e: Earthquake)
  {
    && e.isAnomaly == IsAnomalous(e.magnitude, e.depth)
    && e.anomalyScore == Some(AnomalyScore(e.magnitude, e.depth))
  }

  // ---------------------------------------------------------------------------
  // Normaliser
  // ---------------------------------------------------------------------------

  /** "2023.03.08 02:54:44" gives "2023-03-08". */
  function DatePart(date: string): string
  {
    ReplaceAll(Split(date, ' ')[0], '.', '-')
  }

  /** "2023.03.08 02:54:44" gives "02:54:44"; a missing or empty second piece gives the default. */
  function TimePart(date: string): string
  {
    var parts := Split(date, ' ');
    if |parts| >= 2 && parts[1] != "" then parts[1] else DefaultTime
  }

  function LocationOf(raw: RawEarthquake): string
  {
    if raw.title != "" then raw.title
    else if raw.epiCenterName.Some? && raw.epiCenterName.value != "" then raw.epiCenterName.value
    else UnknownLocation
  }

  function ProvinceOf(raw: RawEarthquake): Option<string>
  {
    if raw.epiCenterName.Some? && raw.epiCenterName.value != "" then raw.epiCenterName else None
  }

  /** `title.split('-')[0].trim() || undefined`. */
  function DistrictOf(title: string): Option<string>
  {
    var d := Trim(Split(title, '-')[0]);
    if d == "" then None else Some(d)
  }

  /** `transformKandilliData`. */
  function Transform(raw: RawEarthquake): (e: Earthquake)
    ensures e.id == raw.earthquakeId && e.source == Kandilli
    ensures e.timestamp == raw.createdAt * 1000
    ensures e.latitude == raw.coordinates.1 && e.longitude == raw.coordinates.0
    ensures e.magnitude == raw.mag && e.depth == raw.depth
    ensures e.isAnomaly <==> raw.mag > 5.0 && raw.depth < 10.0
    ensures !e.isAnomaly ==> e.anomalyScore == Some(0.0)
    ensures e.isAnomaly ==> e.anomalyScore == Some((raw.mag * 10.0 + (100.0 - raw.depth)) / 2.0)
    ensures AnomalyConsistent(e)
    ensures e.date == DatePart(raw.date) && e.time == TimePart(raw.date)
    ensures e.location == LocationOf(raw) && e.province == ProvinceOf(raw)
    ensures e.district == DistrictOf(raw.title)
  {
    Earthquake(
      raw.earthquakeId,
      DatePart(raw.date),
      TimePart(raw.date),
      raw.coordinates.1,
      raw.coordinates.0,
      raw.mag,
      raw.depth,
      LocationOf(raw),
      ProvinceOf(raw),
      DistrictOf(raw.title),
      Kandilli,
      raw.createdAt * 1000,
      IsAnomalous(raw.mag, raw.depth),
      Some(AnomalyScore(raw.mag, raw.depth)))
  }

  /** `result.map(this.transformKandilliData)`. */
  function TransformAll(raws: seq<RawEarthquake>): (r: seq<Earthquake>)
    ensures |r| == |raws|
    ensures forall i :: 0 <= i < |raws| ==> r[i] == Transform(raws[i])
  {
    seq(|raws|, i requires 0 <= i < |raws| => Transform(raws[i]))
  }

  /** The output date is the raw date up to its first space, with every '.' turned into '-'. */
  lemma DateOfRaw(date: string)
    ensures var d := DatePart(date);
            && |d| <= |date|
            && (|d| < |date| ==> date[|d|] == ' ')
            && ' ' !in d && '.' !in d
            && forall i :: 0 <= i < |d| ==> d[i] == (if date[i] == '.' then '-' else date[i])
  {
    FirstPiece(date, ' ');
    var p := Split(date, ' ')[0];
    var d := DatePart(date);
    forall i | 0 <= i < |d| ensures d[i] != ' ' && d[i] != '.' {
      assert p[i] in p;
    }
  }

  /** The output time is the text between the first and the second space of the raw date,
      or "00:00:00" when there is no space or that text is empty. */
  lemma TimeOfRaw(date: string)
    ensures ' ' !in date ==> TimePart(date) == DefaultTime
    ensures ' ' in date ==>
              var k := |Split(date, ' ')[0]|;
              && k < |date| && date[k] == ' ' && ' ' !in date[..k]
              && var q := Split(date[k + 1..], ' ')[0];
                 && k + 1 + |q| <= |date| && q == date[k + 1..k + 1 + |q|]
                 && ' ' !in q
                 && (k + 1 + |q| < |date| ==> date[k + 1 + |q|] == ' ')
                 && TimePart(date) == (if q == "" then DefaultTime else q)
  {
    FirstPiece(date, ' ');
    if ' ' in date {
      SecondPiece(date, ' ');
      var k := |Split(date, ' ')[0]|;
      FirstPiece(date[k + 1..], ' ');
      assert date[..k] == Split(date, ' ')[0];
    }
  }

  /** The district is the text before the first '-' of the title with surrounding
      whitespace removed (see `Trim`), and absent exactly when that text is all whitespace. */
  lemma DistrictOfTitle(title: string)
    ensures var p := Split(title, '-')[0];
            && |p| <= |title| && p == title[..|p|] && '-' !in p
            && (DistrictOf(title).None? <==> forall i :: 0 <= i < |p| ==> IsWhitespace(p[i]))
            && (DistrictOf(title).Some? ==> DistrictOf(title).value == Trim(p))
  {
    FirstPiece(title, '-');
    TrimEmptyIffBlank(Split(title, '-')[0]);
  }

  /** Location falls back from the title to the epicentre name to "Bilinmeyen Konum". */
  lemma LocationFallback(raw: RawEarthquake)
    ensures LocationOf(raw) != ""
    ensures raw.title != "" ==> LocationOf(raw) == raw.title
    ensures raw.title == "" && raw.epiCenterName.Some? && raw.epiCenterName.value != "" ==>
              LocationOf(raw) == raw.epiCenterName.value
    ensures raw.title == "" && (raw.epiCenterName.None? || raw.epiCenterName.value == "") ==>
              LocationOf(raw) == UnknownLocation
  {
  }

  /** The province is the epicentre name when that is present and non-empty, and
      absent otherwise; it is never the empty string. */
  lemma ProvinceFallback(raw: RawEarthquake)
    ensures ProvinceOf(raw).Some? <==> raw.epiCenterName.Some? && raw.epiCenterName.value != ""
    ensures ProvinceOf(raw).Some? ==> ProvinceOf(raw) == raw.epiCenterName && ProvinceOf(raw).value != ""
  {
  }

  // ---------------------------------------------------------------------------
  // Ordering and the fetches
  // ---------------------------------------------------------------------------

  function TimestampKey(e: Earthquake): real
  {
    e.timestamp as real
  }

  predicate NewestFirst(s: seq<Earthquake>)
  {
    forall i, j :: 0 <= i < j < |s| ==> s[i].timestamp >= s[j].timestamp
  }

  /** `list.sort((a, b) => b.timestamp - a.timestamp)`: a permutation, newest first,
      records with equal timestamps in their input order. */
  function SortNewestFirst(s: seq<Earthquake>): (r: seq<Earthquake>)
    ensures multiset(r) == multiset(s) && |r| == |s|
    ensures NewestFirst(r)
  {
    var r := StableSort(s, Negated(TimestampKey));
    SortedNegatedIsDescending(r, TimestampKey);
    SortLength(s, Negated(TimestampKey));
    r
  }

  /** The fixed fallback list (record contents as written in the source). */
  function MockEarthquakes(): seq<Earthquake>
  {
    [ Earthquake("mock_1", "2024-01-15", "14:30:25", 39.9334, 32.8597, 4.2, 12.5,
                 "Ankara, Çankaya", Some("Ankara"), Some("Çankaya"), Kandilli,
                 1705323025000, false, None),
      Earthquake("mock_2", "2024-01-15", "12:15:10", 38.4192, 27.1287, 5.1, 8.2,
                 "İzmir, Bornova", Some("İzmir"), Some("Bornova"), Kandilli,
                 1705316110000, true, Some(75.5)) ]
  }

  /** `eq.timestamp >= oneDayAgo`. */
  function Since(from: int): Earthquake -> bool
  {
    (e: Earthquake) => e.timestamp >= from
  }

  /** `eq.timestamp >= start && eq.timestamp <= end`; a NaN bound (None) fails both. */
  function Within(start: Option<int>, end: Option<int>): Earthquake -> bool
  {
    (e: Earthquake) => start.Some? && end.Some? && start.value <= e.timestamp <= end.value
  }

  /** `fetchLast24Hours`, with the clock reading `now` passed in: the payload's
      records of the last day, each exactly as often as in the payload, newest first. */
  function FetchLast24Hours(response: Response, now: int): (r: seq<Earthquake>)
    ensures !Succeeded(response) ==> r == MockEarthquakes()
    ensures Succeeded(response) ==>
              && NewestFirst(r)
              && multiset(r) == multiset(Filter(TransformAll(response.result), Since(now - DayMillis)))
              && forall e :: e in r <==> e in TransformAll(response.result) && e.timestamp >= now - DayMillis
  {
    if Succeeded(response) then
      var all := TransformAll(response.result);
      var p := Since(now - DayMillis);
      var r := SortNewestFirst(Filter(all, p));
      assert forall e :: e in r <==> e in Filter(all, p) by {
        forall e ensures e in r <==> e in Filter(all, p) {
          assert e in r <==> e in multiset(r);
        }
      }
      assert forall e :: e in Filter(all, p) <==> e in all && p(e) by {
        forall e ensures e in Filter(all, p) <==> e in all && p(e) {
          FilterMembership(all, p, e);
        }
      }
      r
    else MockEarthquakes()
  }

  /** `fetchByDateRange`. The bounds are passed in already parsed: `start` is
      `new Date(startDate).getTime()` and `end` is `new Date(endDate + ' 23:59:59').getTime()`,
      so the end is widened to the last second of its day. None stands for an unparseable
      bound (NaN), against which every comparison fails. */
  function FetchByDateRange(response: Response, start: Option<int>, end: Option<int>): (r: seq<Earthquake>)
    ensures !Succeeded(response) ==> r == MockEarthquakes()
    ensures Succeeded(response) ==>
              && NewestFirst(r)
              && multiset(r) == multiset(Filter(TransformAll(response.result), Within(start, end)))
              && forall e :: e in r <==> && e in TransformAll(response.result)
                                         && start.Some? && end.Some?
                                         && start.value <= e.timestamp <= end.value
  {
    if Succeeded(response) then
      var all := TransformAll(response.result);
      var p := Within(start, end);
      var r := SortNewestFirst(Filter(all, p));
      assert forall e :: e in r <==> e in Filter(all, p) by {
        forall e ensures e in r <==> e in Filter(all, p) {
          assert e in r <==> e in multiset(r);
        }
      }
      assert forall e :: e in Filter(all, p) <==> e in all && p(e) by {
        forall e ensures e in Filter(all, p) <==> e in all && p(e) {
          FilterMembership(all, p, e);
        }
      }
      r
    else MockEarthquakes()
  }

  /** The `EarthquakeService` singleton and its cache. */
  class EarthquakeService {
    var earthquakes: seq<Earthquake>

    constructor ()
      ensures earthquakes == []
    {
      earthquakes := [];
    }

    /** `fetchEarthquakes`: on success the cache becomes the transformed payload
        sorted newest first and is returned; otherwise the mock list is returned and
        the cache is left alone. */
    method FetchEarthquakes(response: Response) returns (r: seq<Earthquake>)
      modifies this
      ensures Succeeded(response) ==>
                && r == earthquakes
                && multiset(earthquakes) == multiset(TransformAll(response.result))
                && NewestFirst(earthquakes)
                && earthquakes == SortNewestFirst(TransformAll(response.result))
      ensures !Succeeded(response) ==> r == MockEarthquakes() && earthquakes == old(earthquakes)
    {
      if response.Body? && response.status {
        earthquakes := TransformAll(response.result);
        earthquakes := SortNewestFirst(earthquakes);
        r := earthquakes;
      } else {
        r := MockEarthquakes();
      }
    }

    /** `getEarthquakeById`: the first cached record carrying `id`, if any. */
    function GetEarthquakeById(id: string): (r: Option<Earthquake>)
      reads this
      ensures r.None? <==> forall e :: e in earthquakes ==> e.id != id
      ensures r.Some? ==> exists i :: 0 <= i < |earthquakes| && earthquakes[i] == r.value
                                      && r.value.id == id
                                      && forall j :: 0 <= j < i ==> earthquakes[j].id != id
    {
      FindById(earthquakes, id)
    }
  }
}
