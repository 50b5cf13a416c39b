/**
  The data side of the earthquake hook: which feed is fetched for a time
  period, and which of its features are kept for a magnitude range.
*/
module UseEarthquakes {
  import opened Seqs
  import opened Earthquake

  datatype TimePeriod = Hour | Day | Week | Month

  const FeedBase: string := "https://earthquake.usgs.gov/earthquakes/feed/v1.0/summary/"

  /** `API_URLS`: one summary feed per time period. */
  const ApiUrls: map<TimePeriod, string> := map[
    Hour := FeedBase + "all_hour.geojson",
    Day := FeedBase + "all_day.geojson",
    Week := FeedBase + "all_week.geojson",
    Month := FeedBase + "all_month.geojson"
  ]

  /** The name the feed uses for a period in its file name. */
  function PeriodName(p: TimePeriod): string
  {
    match p
    case Hour => "hour"
    case Day => "day"
    case Week => "week"
    case Month => "month"
  }

  /** The URL fetched for a period: the USGS summary feed of all events of
      that period. */
  function FeedUrl(p: TimePeriod): (u: string)
    ensures u == FeedBase + "all_" + PeriodName(p) + ".geojson"
  {
    assert p.Hour? || p.Day? || p.Week? || p.Month?;
    ApiUrls[p]
  }

  /** The table is total, and no two periods share a feed: the feeds already
      differ in the first letter of the period's name. */
  lemma ApiUrlsTotalAndDistinct()
    ensures forall p: TimePeriod :: p in ApiUrls
    ensures forall p, q: TimePeriod :: p != q ==> FeedUrl(p) != FeedUrl(q)
  {
    forall p: TimePeriod ensures p in ApiUrls {
      assert p.Hour? || p.Day? || p.Week? || p.Month?;
    }
    forall p: TimePeriod, q: TimePeriod | p != q ensures FeedUrl(p) != FeedUrl(q) {
      var k := |FeedBase| + 4;
      assert FeedUrl(p)[k] == PeriodName(p)[0];
      assert FeedUrl(q)[k] == PeriodName(q)[0];
    }
  }

  /** A magnitude range `[magnitudeRange[0], magnitudeRange[1]]`, both ends
      included. */
  type MagnitudeRange = (real, real)

  /** The filter's test: the magnitude is known and inside the range. */
  predicate InMagnitudeRange(q: Feature, range: MagnitudeRange)
  {
    q.mag != None && q.mag.value >= range.0 && q.mag.value <= range.1
  }

  /** The filter applied to `data.features` after a fetch. */
  function FilterByMagnitude(features: seq<Feature>, range: MagnitudeRange): (r: seq<Feature>)
    ensures forall q :: q in r <==> q in features && q.mag.Some? && range.0 <= q.mag.value <= range.1
    ensures forall i :: 0 <= i < |r| ==> r[i].mag.Some?
    ensures forall q :: multiset(r)[q] == if InMagnitudeRange(q, range) then multiset(features)[q] else 0
    ensures IsSubsequence(r, features)
  {
    Filter(q => InMagnitudeRange(q, range), features)
  }

  /** A feature without a magnitude is never kept, whatever the range. */
  lemma NullMagnitudeDropped(features: seq<Feature>, range: MagnitudeRange, q: Feature)
    requires q.mag == None
    ensures q !in FilterByMagnitude(features, range)
  {
  }

  /** An inverted range keeps nothing. */
  lemma EmptyRange(features: seq<Feature>, range: MagnitudeRange)
    requires range.0 > range.1
    ensures FilterByMagnitude(features, range) == []
  {
  }

  /** Narrowing the range: filtering with the narrow range gives the same
      result whether or not the wide range was applied first, so the narrow
      result is a subsequence of the wide one. */
  lemma NarrowerRange(features: seq<Feature>, wide: MagnitudeRange, narrow: MagnitudeRange)
    requires wide.0 <= narrow.0 && narrow.1 <= wide.1
    ensures FilterByMagnitude(FilterByMagnitude(features, wide), narrow) == FilterByMagnitude(features, narrow)
    ensures IsSubsequence(FilterByMagnitude(features, narrow), FilterByMagnitude(features, wide))
  {
    FilterAbsorbs(q => InMagnitudeRange(q, narrow), q => InMagnitudeRange(q, wide), features);
  }

  /** Re-filtering with the same range changes nothing. */
  lemma FilterByMagnitudeIdempotent(features: seq<Feature>, range: MagnitudeRange)
    ensures FilterByMagnitude(FilterByMagnitude(features, range), range) == FilterByMagnitude(features, range)
  {
    NarrowerRange(features, range, range);
  }
}
