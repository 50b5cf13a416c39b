/**
  The magnitude colour scale and the two legend tables shown beside the map.
*/
module EarthquakeHelpers {

  const Green: string := "#4caf50"
  const Amber: string := "#ffc107"
  const Orange: string := "#ff9800"
  const Red: string := "#f44336"

  /** The four tier colours, from the weakest tier to the strongest. */
  const TierColors: seq<string> := [Green, Amber, Orange, Red]

  /** The tier thresholds: each band starts at its threshold (inclusive). */
  const Thresholds: seq<real> := [3.0, 5.0, 7.0]

  /** The number of thresholds in `ts` that `m` has reached. */
  function Reached(ts: seq<real>, m: real): (n: nat)
    ensures n <= |ts|
  {
    if ts == [] then 0 else (if ts[0] <= m then 1 else 0) + Reached(ts[1..], m)
  }

  /** Reference definition of the tier of a magnitude: the number of
      thresholds it has reached, 0 for the weakest tier and 3 for the
      strongest. */
  function Tier(m: real): (t: nat)
    ensures t < |TierColors|
  {
    Reached(Thresholds, m)
  }

  /** Reaching a threshold is monotone in the magnitude. */
  lemma {:induction false} ReachedMonotone(ts: seq<real>, m1: real, m2: real)
    requires m1 <= m2
    ensures Reached(ts, m1) <= Reached(ts, m2)
  {
    if ts != [] {
      ReachedMonotone(ts[1..], m1, m2);
    }
  }

  /** The tier of a magnitude, band by band. */
  lemma TierBands(m: real)
    ensures m < 3.0 ==> Tier(m) == 0
    ensures 3.0 <= m < 5.0 ==> Tier(m) == 1
    ensures 5.0 <= m < 7.0 ==> Tier(m) == 2
    ensures 7.0 <= m ==> Tier(m) == 3
  {
    var t1, t2 := [5.0, 7.0], [7.0];
    assert Thresholds[1..] == t1 && t1[1..] == t2 && t2[1..] == [];
    assert Reached(t2, m) == if 7.0 <= m then 1 else 0;
    assert Reached(t1, m) == (if 5.0 <= m then 1 else 0) + Reached(t2, m);
    assert Tier(m) == (if 3.0 <= m then 1 else 0) + Reached(t1, m);
  }

  /** `getMagnitudeColor`: an if-chain with bands that include their lower
      edge. The colour is the colour of the magnitude's tier. */
  function MagnitudeColor(m: real): (c: string)
    ensures c == TierColors[Tier(m)]
  {
    TierBands(m);
    if m < 3.0 then Green
    else if m < 5.0 then Amber
    else if m < 7.0 then Orange
    else Red
  }

  /** Every magnitude gets one of exactly four colours. */
  lemma MagnitudeColorIsTierColor(m: real)
    ensures MagnitudeColor(m) in TierColors
    ensures MagnitudeColor(m) == Green || MagnitudeColor(m) == Amber
         || MagnitudeColor(m) == Orange || MagnitudeColor(m) == Red
  {
  }

  /** The four tier colours are pairwise distinct, so the colour determines
      the tier. */
  lemma TierColorsDistinct()
    ensures forall i, j :: 0 <= i < j < |TierColors| ==> TierColors[i] != TierColors[j]
  {
  }

  /** Each band, lower edge included and upper edge excluded. */
  lemma MagnitudeBands(m: real)
    ensures m < 3.0 ==> MagnitudeColor(m) == Green
    ensures 3.0 <= m < 5.0 ==> MagnitudeColor(m) == Amber
    ensures 5.0 <= m < 7.0 ==> MagnitudeColor(m) == Orange
    ensures 7.0 <= m ==> MagnitudeColor(m) == Red
  {
  }

  /** The colour identifies the band, in both directions. */
  lemma MagnitudeColorIff(m: real)
    ensures MagnitudeColor(m) == Green <==> m < 3.0
    ensures MagnitudeColor(m) == Amber <==> 3.0 <= m < 5.0
    ensures MagnitudeColor(m) == Orange <==> 5.0 <= m < 7.0
    ensures MagnitudeColor(m) == Red <==> 7.0 <= m
  {
    TierColorsDistinct();
  }

  /** The band edges themselves: a magnitude of exactly 3 is amber, one just
      below it is green. */
  lemma BandEdges()
    ensures MagnitudeColor(2.9999) == Green
    ensures MagnitudeColor(3.0) == Amber
    ensures MagnitudeColor(5.0) == Orange
    ensures MagnitudeColor(7.0) == Red
  {
  }

  /** A stronger earthquake never gets a lower tier. */
  lemma TierMonotone(m1: real, m2: real)
    requires m1 <= m2
    ensures Tier(m1) <= Tier(m2)
  {
    ReachedMonotone(Thresholds, m1, m2);
  }

  /** One row of the magnitude legend. */
  datatype MagnitudeLevel = MagnitudeLevel(range: string, color: string, description: string)

  /** The representative magnitudes the legend colours are computed from. */
  const Representatives: seq<real> := [2.0, 4.0, 6.0, 8.0]

  /** `magnitudeLevels`: each colour is taken from a representative magnitude
      of its band. */
  const MagnitudeLevels: seq<MagnitudeLevel> := [
    MagnitudeLevel("0 - 2.9", MagnitudeColor(Representatives[0]), "Minor"),
    MagnitudeLevel("3.0 - 4.9", MagnitudeColor(Representatives[1]), "Light to Moderate"),
    MagnitudeLevel("5.0 - 6.9", MagnitudeColor(Representatives[2]), "Strong"),
    MagnitudeLevel("7.0+", MagnitudeColor(Representatives[3]), "Major")
  ]

  /** The legend lists the four tiers in ascending order: the i-th row's
      representative magnitude lies in tier i and the row shows that tier's
      colour, so the legend agrees with the colours on the map. */
  lemma MagnitudeLevelsMatchTiers()
    ensures |MagnitudeLevels| == |TierColors| == |Representatives|
    ensures forall i :: 0 <= i < |MagnitudeLevels| ==>
      && MagnitudeLevels[i].color == MagnitudeColor(Representatives[i])
      && Tier(Representatives[i]) == i && MagnitudeLevels[i].color == TierColors[i]
    ensures forall i, j :: 0 <= i < j < |MagnitudeLevels| ==>
      MagnitudeLevels[i].color != MagnitudeLevels[j].color
  {
    TierColorsDistinct();
  }

  /** One row of the cluster legend. */
  datatype ClusterCountLevel = ClusterCountLevel(range: string, description: string, color: string)

  /** `clusterCountLevels`, densest band first. */
  const ClusterCountLevels: seq<ClusterCountLevel> := [
    ClusterCountLevel("Over 50", "Very High Density", "#111827"),
    ClusterCountLevel("21 - 50", "High Density", "#374151"),
    ClusterCountLevel("6 - 20", "Moderate Density", "#9ca3af"),
    ClusterCountLevel("1 - 5", "Low Density", "#6b7280")
  ]

  /** Four count bands in descending order, each with its own colour and
      description. */
  lemma ClusterCountLevelsShape()
    ensures |ClusterCountLevels| == 4
    ensures ClusterCountLevels[0].range == "Over 50"
    ensures ClusterCountLevels[1].range == "21 - 50"
    ensures ClusterCountLevels[2].range == "6 - 20"
    ensures ClusterCountLevels[3].range == "1 - 5"
    ensures forall i, j :: 0 <= i < j < |ClusterCountLevels| ==>
      ClusterCountLevels[i].color != ClusterCountLevels[j].color
      && ClusterCountLevels[i].description != ClusterCountLevels[j].description
  {
  }
}
