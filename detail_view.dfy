/** The detail page of one earthquake (src/views/EarthquakeDetailView.tsx): the
    record selected by the route's id, its colour class and seven-step magnitude
    description, the fallbacks for missing place names, and when the anomaly card
    and its score appear. */
module DetailView {
  import opened Types
  import ListView
  import QuakeService

  /** A route parameter is truthy when present and not the empty string. */
  predicate Truthy(id: Option<string>)
  {
    id.Some? && id.value != ""
  }

  /** The selection effect: with a truthy `id` and a non-empty list it selects the
      first record with that id, or nothing when none has it; otherwise the
      previous selection stays. */
  function SelectOnChange(prev: Option<Earthquake>, id: Option<string>, earthquakes: seq<Earthquake>)
    : (r: Option<Earthquake>)
    ensures !(Truthy(id) && |earthquakes| > 0) ==> r == prev
    ensures Truthy(id) && |earthquakes| > 0 ==>
              (r.None? <==> forall i :: 0 <= i < |earthquakes| ==> earthquakes[i].id != id.value)
    ensures Truthy(id) && |earthquakes| > 0 && r.Some? ==>
              exists i :: 0 <= i < |earthquakes| && earthquakes[i] == r.value && r.value.id == id.value
                          && forall j :: 0 <= j < i ==> earthquakes[j].id != id.value
  {
    if Truthy(id) && |earthquakes| > 0 then FindById(earthquakes, id.value) else prev
  }

  /** `getMagnitudeColor` of the detail page. */
  function DetailColor(mag: real): string
  {
    if mag >= 6.0 then "bg-red-500"
    else if mag >= 5.0 then "bg-orange-500"
    else if mag >= 4.0 then "bg-yellow-500"
    else if mag >= 3.0 then "bg-green-500"
    else "bg-gray-500"
  }

  /** The detail page colours every magnitude exactly as the list page does, so it
      too gives each band its class and no other. */
  lemma DetailColorIsListColor(mag: real, b: Band)
    ensures DetailColor(mag) == ListView.ListColor(mag)
    ensures DetailColor(mag) == ListView.BandClass(b) <==> InBand(mag, b)
  {
    ListView.ListColorBands(mag, b);
  }

  /** The seven descriptions, weakest first. */
  const Descriptions: seq<string> := [
    "Mikro Deprem", "Çok Hafif Deprem", "Hafif Deprem", "Orta Güçte Deprem",
    "Güçlü Deprem", "Çok Güçlü Deprem", "Büyük Deprem"]

  /** The lower bounds of the six upper steps, each inclusive. */
  const Thresholds: seq<real> := [3.0, 4.0, 5.0, 6.0, 7.0, 8.0]

  /** The step of the description scale a magnitude is on: the number of thresholds it reaches. */
  function DescriptionRank(mag: real): (r: nat)
    ensures r < |Descriptions|
    ensures forall k :: 0 <= k < |Thresholds| ==> (r > k <==> mag >= Thresholds[k])
  {
    if mag >= 8.0 then 6
    else if mag >= 7.0 then 5
    else if mag >= 6.0 then 4
    else if mag >= 5.0 then 3
    else if mag >= 4.0 then 2
    else if mag >= 3.0 then 1
    else 0
  }

  /** `getMagnitudeDescription`. */
  function Description(mag: real): string
  {
    if mag >= 8.0 then "Büyük Deprem"
    else if mag >= 7.0 then "Çok Güçlü Deprem"
    else if mag >= 6.0 then "Güçlü Deprem"
    else if mag >= 5.0 then "Orta Güçte Deprem"
    else if mag >= 4.0 then "Hafif Deprem"
    else if mag >= 3.0 then "Çok Hafif Deprem"
    else "Mikro Deprem"
  }

  /** Every magnitude gets exactly one description, the one of its step; the seven
      descriptions are distinct, so the description determines the step. */
  lemma DescriptionIsStep(mag: real)
    ensures Description(mag) == Descriptions[DescriptionRank(mag)]
    ensures forall i, j :: 0 <= i < j < |Descriptions| ==> Descriptions[i] != Descriptions[j]
  {
  }

  /** A stronger earthquake never gets a weaker description. */
  lemma DescriptionMonotone(m1: real, m2: real)
    requires m1 <= m2
    ensures DescriptionRank(m1) <= DescriptionRank(m2)
  {
  }

  /** `value || 'Bilinmiyor'`: a missing or empty name is shown as "Bilinmiyor". */
  function DisplayOrUnknown(value: Option<string>): (r: string)
    ensures r != ""
    ensures value.Some? && value.value != "" ==> r == value.value
    ensures value.None? || value.value == "" ==> r == "Bilinmiyor"
  {
    if value.Some? && value.value != "" then value.value else "Bilinmiyor"
  }

  /** The anomaly card is rendered only for flagged records. */
  predicate ShowsAnomalyCard(e: Earthquake)
  {
    e.isAnomaly
  }

  /** Inside the card the score is rendered only when it is truthy: present and not 0. */
  predicate ShowsScore(e: Earthquake)
  {
    ShowsAnomalyCard(e) && e.anomalyScore.Some? && e.anomalyScore.value != 0.0
  }

  /** For a normalised record the score appears exactly when the card does, since an
      anomalous event scores above 70. */
  lemma ScoreShownWithCard(raw: QuakeService.RawEarthquake)
    ensures ShowsScore(QuakeService.Transform(raw)) <==> ShowsAnomalyCard(QuakeService.Transform(raw))
  {
    var e := QuakeService.Transform(raw);
    if e.isAnomaly {
      QuakeService.AnomalyScoreAbove70(raw.mag, raw.depth);
    }
  }

  /** A normalised record's district is never the empty string, so the page shows
      either the district itself or "Bilinmiyor" when it is missing. */
  lemma DistrictShown(raw: QuakeService.RawEarthquake)
    ensures var e := QuakeService.Transform(raw);
            DisplayOrUnknown(e.district) == (if e.district.Some? then e.district.value else "Bilinmiyor")
  {
  }
}
