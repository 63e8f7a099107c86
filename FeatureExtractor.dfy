/** Feature assembly for grid cells (backend/services/feature_extractor.py).
    Each cell carries a feature dictionary that the pipeline steps update in
    place: satellite vegetation, proximity distances, temporal context,
    terrain, species heuristics and derived features; format_for_model_input
    then projects every dictionary onto the fixed 26-key model schema.
    Earth Engine samples, the haversine distance, the numpy random estimates,
    the moon phase and the calendar are inputs. */
module FeatureExtractor {
  import opened Common
  import opened GeeSatellite

  /** The keys of a cell's feature dictionary: one per name the pipeline
      writes (KeyName gives the dictionary key). */
  datatype FeatureKey =
    Ndvi
    | VegetationType
    | VegetationTypeEncoded
    | DistToBoundary
    | DistToWater
    | DistToRoad
    | DistToSettlement
    | MoonIllumination
    | Season
    | SeasonEncoded
    | DayOfWeek
    | Elevation
    | Slope
    | TerrainRuggedness
    | ElephantMigrationRoute
    | BreedingSeason
    | WateringPattern
    | WateringPatternEncoded
    | BoundaryRisk
    | WaterAttraction
    | AccessEase
    | IsolationScore
    | DenseVegetation
    | DrySeason
    | IsWeekend
    | Incidents5kmRadius
    | DaysSinceLastIncident
    | SeasonalIncidentRate
    | IncidentDensity

  function KeyName(k: FeatureKey): string
  {
    match k
    case Ndvi => "ndvi"
    case VegetationType => "vegetation_type"
    case VegetationTypeEncoded => "vegetation_type_encoded"
    case DistToBoundary => "dist_to_boundary"
    case DistToWater => "dist_to_water"
    case DistToRoad => "dist_to_road"
    case DistToSettlement => "dist_to_settlement"
    case MoonIllumination => "moon_illumination"
    case Season => "season"
    case SeasonEncoded => "season_encoded"
    case DayOfWeek => "day_of_week"
    case Elevation => "elevation"
    case Slope => "slope"
    case TerrainRuggedness => "terrain_ruggedness"
    case ElephantMigrationRoute => "elephant_migration_route"
    case BreedingSeason => "breeding_season"
    case WateringPattern => "watering_pattern"
    case WateringPatternEncoded => "watering_pattern_encoded"
    case BoundaryRisk => "boundary_risk"
    case WaterAttraction => "water_attraction"
    case AccessEase => "access_ease"
    case IsolationScore => "isolation_score"
    case DenseVegetation => "dense_vegetation"
    case DrySeason => "dry_season"
    case IsWeekend => "is_weekend"
    case Incidents5kmRadius => "incidents_5km_radius"
    case DaysSinceLastIncident => "days_since_last_incident"
    case SeasonalIncidentRate => "seasonal_incident_rate"
    case IncidentDensity => "incident_density"
  }

  type Features = map<FeatureKey, Value>

  /** A grid cell as the extractor sees it: its id and centre never change;
      its feature dictionary is replaced or updated by the pipeline steps. */
  class FeatureCell {
    const id: string
    const center: LatLng
    var features: Features

    constructor (id: string, center: LatLng)
      ensures this.id == id && this.center == center && features == map[]
    {
      this.id := id;
      this.center := center;
      features := map[];
    }
  }

  /** The cells are distinct objects, as the grid generator produces them. */
  predicate Distinct(cells: seq<FeatureCell>)
  {
    forall i, j :: 0 <= i < j < |cells| ==> cells[i] != cells[j]
  }

  /** dict.get(key, default). */
  function Get(f: Features, key: FeatureKey, default: Value): Value
  {
    if key in f then f[key] else default
  }

  /** A distance metric between two points (the haversine formula stays abstract). */
  type Metric = (LatLng, LatLng) -> real

  ghost predicate NonNegativeMetric(hav: Metric)
  {
    forall p, q :: hav(p, q) >= 0.0
  }

  // ---------------------------------------------------------------------
  // Satellite features: NDVI and vegetation class
  // ---------------------------------------------------------------------

  /** The NDVI sample for one cell: the value Earth Engine returned (None when
      it returned nothing), or a failure of the sampling call. */
  datatype NdviSample = Sampled(raw: Option<real>) | SampleFailed

  const VegetationClasses: seq<string> := ["sparse", "scrub", "grassland", "forest"]

  /** `round(v, 3) if v else 0.5`: a missing value and an exact 0.0 both become 0.5. */
  function NdviValue(raw: Option<real>): real
  {
    if raw.None? || raw.value == 0.0 then 0.5 else RoundDecimals(raw.value, 3)
  }

  function ClassifyVegetation(ndvi: real): (v: string)
    ensures v in VegetationClasses
  {
    if ndvi < 0.2 then "sparse"
    else if ndvi < 0.4 then "scrub"
    else if ndvi < 0.6 then "grassland"
    else "forest"
  }

  /** list.index on the class list. */
  function VegetationIndex(v: string): (k: nat)
    requires v in VegetationClasses
    ensures k < |VegetationClasses| && VegetationClasses[k] == v
  {
    if v == "sparse" then 0 else if v == "scrub" then 1 else if v == "grassland" then 2 else 3
  }

  const VegetationThresholds: seq<real> := [0.2, 0.4, 0.6]

  /** How many of the thresholds are at most x. */
  function CountAtMost(ts: seq<real>, x: real): (n: nat)
    ensures n <= |ts|
  {
    if |ts| == 0 then 0 else (if ts[0] <= x then 1 else 0) + CountAtMost(ts[1..], x)
  }

  /** The encoding of the class is the number of class thresholds the NDVI
      has reached, so it lies in 0..3. */
  lemma VegetationEncodingCountsThresholds(ndvi: real)
    ensures VegetationIndex(ClassifyVegetation(ndvi)) == CountAtMost(VegetationThresholds, ndvi)
  {
    var x := ndvi;
    assert CountAtMost([], x) == 0;
    assert [0.6][1..] == [];
    assert CountAtMost([0.6], x) == (if 0.6 <= x then 1 else 0);
    assert [0.4, 0.6][1..] == [0.6];
    assert CountAtMost([0.4, 0.6], x) == (if 0.4 <= x then 1 else 0) + CountAtMost([0.6], x);
    assert VegetationThresholds[1..] == [0.4, 0.6];
  }

  /** A greener cell never gets a lower vegetation encoding. */
  lemma VegetationEncodingMonotone(ndvi1: real, ndvi2: real)
    requires ndvi1 <= ndvi2
    ensures VegetationIndex(ClassifyVegetation(ndvi1)) <= VegetationIndex(ClassifyVegetation(ndvi2))
  {
    VegetationEncodingCountsThresholds(ndvi1);
    VegetationEncodingCountsThresholds(ndvi2);
    CountAtMostMonotone(VegetationThresholds, ndvi1, ndvi2);
  }

  lemma {:induction false} CountAtMostMonotone(ts: seq<real>, x: real, y: real)
    requires x <= y
    ensures CountAtMost(ts, x) <= CountAtMost(ts, y)
  {
    if |ts| > 0 {
      CountAtMostMonotone(ts[1..], x, y);
    }
  }

  /** The feature dictionary of one cell when imagery exists. */
  function SatelliteFeatures(s: NdviSample): Features
  {
    match s
    case SampleFailed =>
      map[Ndvi := Num(0.5), VegetationType := Text("grassland"), VegetationTypeEncoded := Num(2.0)]
    case Sampled(raw) =>
      var v := NdviValue(raw);
      var t := ClassifyVegetation(v);
      map[Ndvi := Num(v), VegetationType := Text(t), VegetationTypeEncoded := Num(VegetationIndex(t) as real)]
  }

  /** The feature dictionary of every cell when no image is available: the
      class is given, but its encoding is not. */
  const NoImageryFeatures: Features := map[Ndvi := Num(0.5), VegetationType := Text("grassland")]

  /** The fallback after a failed sampling call is what classifying the default
      NDVI 0.5 would give. */
  lemma SatelliteFallbackAgrees(raw: Option<real>)
    requires raw.None? || raw.value == 0.0
    ensures SatelliteFeatures(SampleFailed) == SatelliteFeatures(Sampled(raw))
  {
  }

  lemma SatelliteEncodingInRange(s: NdviSample)
    ensures VegetationTypeEncoded in SatelliteFeatures(s)
    ensures var e := SatelliteFeatures(s)[VegetationTypeEncoded];
      e.Num? && e.x in {0.0, 1.0, 2.0, 3.0}
    ensures SatelliteFeatures(s)[VegetationType].Text?
    ensures SatelliteFeatures(s)[VegetationType].s == VegetationClasses[SatelliteFeatures(s)[VegetationTypeEncoded].x.Floor]
  {
  }

  /** _extract_satellite_features: every cell's dictionary is replaced. */
  method ExtractSatelliteFeatures(cells: seq<FeatureCell>, imagesAvailable: bool, samples: seq<NdviSample>)
    requires Distinct(cells) && |samples| == |cells|
    modifies set c | c in cells
    ensures forall i :: 0 <= i < |cells| ==>
      cells[i].features == if imagesAvailable then SatelliteFeatures(samples[i]) else NoImageryFeatures
  {
    for i := 0 to |cells|
      invariant forall j :: 0 <= j < i ==>
        cells[j].features == if imagesAvailable then SatelliteFeatures(samples[j]) else NoImageryFeatures
    {
      cells[i].features := if imagesAvailable then SatelliteFeatures(samples[i]) else NoImageryFeatures;
    }
  }

  // ---------------------------------------------------------------------
  // Proximity features
  // ---------------------------------------------------------------------

  /** _point_to_segment_distance: the nearer of the two end points. */
  function PointToSegmentDistance(p: LatLng, a: LatLng, b: LatLng, hav: Metric): (d: real)
    ensures d <= hav(p, a) && d <= hav(p, b)
    ensures d == hav(p, a) || d == hav(p, b)
  {
    Min(hav(p, a), hav(p, b))
  }

  /** min(current, d) with float('inf') as the starting value. */
  function MinValue(current: Value, d: real): Value
  {
    match current
    case Num(x) => Num(Min(x, d))
    case _ => Num(d)
  }

  /** The running minimum after the first k edges polygon[i] -> polygon[(i + 1) % n]. */
  function EdgeDistanceAfter(p: LatLng, polygon: seq<LatLng>, hav: Metric, k: nat): Value
    requires k <= |polygon|
  {
    if k == 0 then Inf
    else MinValue(EdgeDistanceAfter(p, polygon, hav, k - 1),
                  PointToSegmentDistance(p, polygon[k - 1], polygon[Wrap(k, |polygon|)], hav))
  }

  function EdgeDistance(p: LatLng, polygon: seq<LatLng>, hav: Metric): Value
  {
    EdgeDistanceAfter(p, polygon, hav, |polygon|)
  }

  /** _distance_to_polygon_edge. */
  method DistanceToPolygonEdge(lat: real, lng: real, polygon: seq<LatLng>, hav: Metric) returns (d: Value)
    ensures d == EdgeDistance(LatLng(lat, lng), polygon, hav)
  {
    var n := |polygon|;
    d := Inf;
    for i := 0 to n
      invariant d == EdgeDistanceAfter(LatLng(lat, lng), polygon, hav, i)
    {
      var p1 := polygon[i];
      var p2 := polygon[Wrap(i + 1, n)];
      var dist := PointToSegmentDistance(LatLng(lat, lng), p1, p2, hav);
      d := MinValue(d, dist);
    }
  }

  /** The distance to the "edge" is the distance to the nearest vertex: every
      wrapped edge contributes the nearer of its end points, and every vertex
      starts an edge. An empty polygon gives infinity. */
  lemma EdgeDistanceIsNearestVertex(p: LatLng, polygon: seq<LatLng>, hav: Metric)
    ensures |polygon| == 0 ==> EdgeDistance(p, polygon, hav) == Inf
    ensures |polygon| > 0 ==> EdgeDistance(p, polygon, hav).Num?
    ensures |polygon| > 0 ==> forall i :: 0 <= i < |polygon| ==> EdgeDistance(p, polygon, hav).x <= hav(p, polygon[i])
    ensures |polygon| > 0 ==> exists i :: 0 <= i < |polygon| && EdgeDistance(p, polygon, hav).x == hav(p, polygon[i])
  {
    if |polygon| > 0 {
      EdgeDistancePrefix(p, polygon, hav, |polygon|);
    }
  }

  lemma {:induction false} EdgeDistancePrefix(p: LatLng, polygon: seq<LatLng>, hav: Metric, k: nat)
    requires 0 < k <= |polygon|
    ensures EdgeDistanceAfter(p, polygon, hav, k).Num?
    ensures forall i :: 0 <= i < k ==> EdgeDistanceAfter(p, polygon, hav, k).x <= hav(p, polygon[i])
    ensures exists i :: 0 <= i < |polygon| && EdgeDistanceAfter(p, polygon, hav, k).x == hav(p, polygon[i])
  {
    var n := |polygon|;
    var seg := PointToSegmentDistance(p, polygon[k - 1], polygon[Wrap(k, n)], hav);
    if k == 1 {
      assert EdgeDistanceAfter(p, polygon, hav, 1) == Num(seg);
      if seg == hav(p, polygon[0]) {
      } else {
        assert seg == hav(p, polygon[Wrap(k, n)]);
      }
    } else {
      EdgeDistancePrefix(p, polygon, hav, k - 1);
      var prev := EdgeDistanceAfter(p, polygon, hav, k - 1).x;
      assert EdgeDistanceAfter(p, polygon, hav, k) == Num(Min(prev, seg));
      if prev <= seg {
      } else if seg == hav(p, polygon[k - 1]) {
      } else {
        assert seg == hav(p, polygon[Wrap(k, n)]);
      }
    }
  }

  /** The three np.random.uniform estimates drawn for one cell, each in its
      half-open range. */
  datatype Draws = Draws(water: real, road: real, settlement: real)

  predicate DrawsInRange(d: Draws)
  {
    && 500.0 <= d.water < 5000.0
    && 1000.0 <= d.road < 15000.0
    && 5000.0 <= d.settlement < 40000.0
  }

  /** round(x, 1), letting infinity through. */
  function RoundValue1(v: Value): Value
  {
    if v.Num? then Num(RoundDecimals(v.x, 1)) else v
  }

  /** The drawn polygon when `park_boundary is None`; any given boundary,
      even an empty one, is kept. */
  function BoundaryFor(polygon: seq<LatLng>, parkBoundary: Option<seq<LatLng>>): seq<LatLng>
  {
    if parkBoundary.None? then polygon else parkBoundary.value
  }

  function ProximityFeatures(f: Features, center: LatLng, boundary: seq<LatLng>, hav: Metric, d: Draws): Features
  {
    f[DistToBoundary := RoundValue1(EdgeDistance(center, boundary, hav))]
      [DistToWater := Num(RoundDecimals(d.water, 1))]
      [DistToRoad := Num(RoundDecimals(d.road, 1))]
      [DistToSettlement := Num(RoundDecimals(d.settlement, 1))]
  }

  /** _calculate_proximity_features. */
  method CalculateProximityFeatures(cells: seq<FeatureCell>, polygon: seq<LatLng>,
                                    parkBoundary: Option<seq<LatLng>>, hav: Metric, draws: seq<Draws>)
    requires Distinct(cells) && |draws| == |cells|
    modifies set c | c in cells
    ensures forall i :: 0 <= i < |cells| ==>
      cells[i].features == ProximityFeatures(old(cells[i].features), cells[i].center,
                                               BoundaryFor(polygon, parkBoundary), hav, draws[i])
  {
    var boundary := if parkBoundary.None? then polygon else parkBoundary.value;
    for i := 0 to |cells|
      invariant forall j :: 0 <= j < i ==>
        cells[j].features == ProximityFeatures(old(cells[j].features), cells[j].center, boundary, hav, draws[j])
      invariant forall j :: i <= j < |cells| ==> cells[j].features == old(cells[j].features)
    {
      var c := cells[i];
      var distToBoundary := DistanceToPolygonEdge(c.center.lat, c.center.lng, boundary, hav);
      c.features := c.features[DistToBoundary := RoundValue1(distToBoundary)]
        [DistToWater := Num(RoundDecimals(draws[i].water, 1))]
        [DistToRoad := Num(RoundDecimals(draws[i].road, 1))]
        [DistToSettlement := Num(RoundDecimals(draws[i].settlement, 1))];
    }
  }

  /** A distance feature that is infinite or a number that is at least lo. */
  predicate DistanceAtLeast(v: Value, lo: real)
  {
    v.Inf? || (v.Num? && v.x >= lo)
  }

  /** With a non-negative metric and draws in range, every proximity distance
      is non-negative (the boundary one may be infinite) and the three
      estimates keep their lower bounds. */
  lemma ProximityDistancesNonNegative(f: Features, center: LatLng, boundary: seq<LatLng>, hav: Metric, d: Draws)
    requires NonNegativeMetric(hav) && DrawsInRange(d)
    ensures var g := ProximityFeatures(f, center, boundary, hav, d);
      && DistanceAtLeast(g[DistToBoundary], 0.0)
      && DistanceAtLeast(g[DistToWater], 500.0)
      && DistanceAtLeast(g[DistToRoad], 1000.0)
      && DistanceAtLeast(g[DistToSettlement], 5000.0)
  {
    EdgeDistanceIsNearestVertex(center, boundary, hav);
    var e := EdgeDistance(center, boundary, hav);
    if e.Num? {
      var k :| 0 <= k < |boundary| && e.x == hav(center, boundary[k]);
      RoundDecimalsNonNegative(e.x, 1);
    }
    RoundAtLeast(d.water, 500);
    RoundAtLeast(d.road, 1000);
    RoundAtLeast(d.settlement, 5000);
  }

  /** round(x, 1) keeps an integer lower bound. */
  lemma RoundAtLeast(x: real, lo: int)
    requires x >= lo as real
    ensures RoundDecimals(x, 1) >= lo as real
  {
    var hi := (x * 10.0).Floor + 1;
    assert Pow10(1) == 10;
    RoundDecimalsBetween(x, 1, lo * 10, hi);
    assert (lo * 10) as real / 10.0 == lo as real;
  }

  // ---------------------------------------------------------------------
  // Temporal features
  // ---------------------------------------------------------------------

  /** The calendar facts of the middle date of the analysis period and the
      ephem moon phase (a percentage) on that date. */
  datatype TemporalInputs = TemporalInputs(month: int, weekday: int, moonPhase: real)

  /** (season, season_encoded) of a month, Kenya's two rainy seasons. */
  function SeasonOf(month: int): (string, int)
  {
    if month in {12, 1, 2, 3} then ("dry", 0)
    else if month in {4, 5} then ("wet", 1)
    else if month in {6, 7, 8, 9, 10} then ("dry", 0)
    else ("wet", 1)
  }

  /** Over the calendar months, the season is wet exactly in April, May and
      November, and the encoding is 1 exactly for wet. */
  lemma SeasonWetMonths(month: int)
    requires 1 <= month <= 12
    ensures SeasonOf(month).0 == "wet" <==> month in {4, 5, 11}
    ensures SeasonOf(month).0 in {"wet", "dry"}
    ensures SeasonOf(month).1 == (if SeasonOf(month).0 == "wet" then 1 else 0)
  {
  }

  function TemporalFeatures(f: Features, t: TemporalInputs): Features
  {
    var (season, encoded) := SeasonOf(t.month);
    f[MoonIllumination := Num(RoundDecimals(t.moonPhase / 100.0, 2))]
      [Season := Text(season)]
      [SeasonEncoded := Num(encoded as real)]
      [DayOfWeek := Num(t.weekday as real)]
  }

  /** The moon illumination is a fraction in [0, 1] for a phase in [0, 100]. */
  lemma MoonIlluminationIsFraction(f: Features, t: TemporalInputs)
    requires 0.0 <= t.moonPhase <= 100.0
    ensures var m := TemporalFeatures(f, t)[MoonIllumination]; m.Num? && 0.0 <= m.x <= 1.0
  {
    assert Pow10(2) == 100;
    RoundDecimalsBetween(t.moonPhase / 100.0, 2, 0, 100);
  }

  /** _add_temporal_features: every cell gets the same four values. */
  method AddTemporalFeatures(cells: seq<FeatureCell>, t: TemporalInputs)
    requires Distinct(cells)
    modifies set c | c in cells
    ensures forall i :: 0 <= i < |cells| ==> cells[i].features == TemporalFeatures(old(cells[i].features), t)
  {
    var moonIllumination := RoundDecimals(t.moonPhase / 100.0, 2);
    var (season, seasonEncoded) := SeasonOf(t.month);
    for i := 0 to |cells|
      invariant forall j :: 0 <= j < i ==> cells[j].features == TemporalFeatures(old(cells[j].features), t)
      invariant forall j :: i <= j < |cells| ==> cells[j].features == old(cells[j].features)
    {
      cells[i].features := cells[i].features[MoonIllumination := Num(moonIllumination)]
        [Season := Text(season)]
        [SeasonEncoded := Num(seasonEncoded as real)]
        [DayOfWeek := Num(t.weekday as real)];
    }
  }

  // ---------------------------------------------------------------------
  // Topographical features
  // ---------------------------------------------------------------------

  /** The SRTM samples for one cell (None when Earth Engine returned nothing),
      or a failure of the sampling calls. */
  datatype TerrainSample = Terrain(elevation: Option<real>, slope: Option<real>) | TerrainFailed

  /** _calculate_ruggedness: slope in degrees scaled from 0..60 to 0..10 and clipped. */
  function CalculateRuggedness(slope: real): (r: real)
  {
    Clip(slope / 60.0 * 10.0, 0.0, 10.0)
  }

  lemma RuggednessProperties(s1: real, s2: real)
    requires s1 <= s2
    ensures 0.0 <= CalculateRuggedness(s1) <= 10.0
    ensures CalculateRuggedness(s1) <= CalculateRuggedness(s2)
    ensures CalculateRuggedness(60.0) == 10.0 && CalculateRuggedness(0.0) == 0.0
    ensures s2 >= 60.0 ==> CalculateRuggedness(s2) == 10.0
  {
    assert s1 / 60.0 * 10.0 <= s2 / 60.0 * 10.0;
  }

  /** `float(v) if v else default`. */
  function OrDefault(v: Option<real>, default: real): real
  {
    if v.None? || v.value == 0.0 then default else v.value
  }

  function TopographicalFeatures(f: Features, s: TerrainSample): Features
  {
    match s
    case TerrainFailed =>
      f[Elevation := Num(1000.0)]
        [Slope := Num(10.0)]
        [TerrainRuggedness := Num(5.0)]
    case Terrain(e, sl) =>
      var elevation := OrDefault(e, 1000.0);
      var slope := OrDefault(sl, 10.0);
      f[Elevation := Num(RoundDecimals(elevation, 1))]
        [Slope := Num(RoundDecimals(slope, 1))]
        [TerrainRuggedness := Num(RoundDecimals(CalculateRuggedness(slope), 1))]
  }

  /** The terrain ruggedness feature always lies in [0, 10]. */
  lemma TerrainRuggednessInRange(f: Features, s: TerrainSample)
    ensures var r := TopographicalFeatures(f, s)[TerrainRuggedness]; r.Num? && 0.0 <= r.x <= 10.0
  {
    if s.Terrain? {
      var slope := OrDefault(s.slope, 10.0);
      RuggednessProperties(slope, slope);
      assert Pow10(1) == 10;
      RoundDecimalsBetween(CalculateRuggedness(slope), 1, 0, 100);
    }
  }

  /** _extract_topographical_features. */
  method ExtractTopographicalFeatures(cells: seq<FeatureCell>, samples: seq<TerrainSample>)
    requires Distinct(cells) && |samples| == |cells|
    modifies set c | c in cells
    ensures forall i :: 0 <= i < |cells| ==> cells[i].features == TopographicalFeatures(old(cells[i].features), samples[i])
  {
    for i := 0 to |cells|
      invariant forall j :: 0 <= j < i ==> cells[j].features == TopographicalFeatures(old(cells[j].features), samples[j])
      invariant forall j :: i <= j < |cells| ==> cells[j].features == old(cells[j].features)
    {
      cells[i].features := TopographicalFeatures(cells[i].features, samples[i]);
    }
  }

  // ---------------------------------------------------------------------
  // Species features
  // ---------------------------------------------------------------------

  /** The Amboseli-Tsavo corridor box, open on every side. */
  function OnMigrationRoute(center: LatLng): int
  {
    if -2.5 < center.lat < -1.5 && 37.0 < center.lng < 38.0 then 1 else 0
  }

  /** The breeding months, by the current month (datetime.now() is an input). */
  function InBreedingSeason(nowMonth: int): int
  {
    if nowMonth in {3, 4, 5, 11, 12} then 1 else 0
  }

  /** Python's `v < t` for a number or infinity. */
  predicate Below(v: Value, t: real)
  {
    v.Num? && v.x < t
  }

  /** (watering_pattern, watering_pattern_encoded) by distance to water. */
  function WateringOf(distToWater: Value): (string, int)
  {
    if Below(distToWater, 2000.0) then ("regular", 0)
    else if Below(distToWater, 5000.0) then ("seasonal", 1)
    else ("rare", 2)
  }

  /** A value the species step can compare with a number. */
  predicate Comparable(v: Value)
  {
    v.Num? || v.Inf?
  }

  /** The species step compares dist_to_water, when present, with numbers. */
  predicate DistWaterComparable(f: Features)
  {
    DistToWater in f ==> Comparable(f[DistToWater])
  }

  function SpeciesFeatures(f: Features, center: LatLng, nowMonth: int): Features
    requires DistWaterComparable(f)
  {
    var (watering, encoded) := WateringOf(Get(f, DistToWater, Num(5000.0)));
    f[ElephantMigrationRoute := Num(OnMigrationRoute(center) as real)]
      [BreedingSeason := Num(InBreedingSeason(nowMonth) as real)]
      [WateringPattern := Text(watering)]
      [WateringPatternEncoded := Num(encoded as real)]
  }

  /** The watering classes partition the distances: regular below 2000,
      seasonal in [2000, 5000), rare from 5000 on and for infinity; a missing
      distance counts as 5000 and so gives rare. */
  lemma WateringClasses(f: Features, center: LatLng, nowMonth: int)
    requires DistWaterComparable(f)
    ensures var g := SpeciesFeatures(f, center, nowMonth);
            var e := g[WateringPatternEncoded];
      && (e == Num(0.0) <==> (DistToWater in f && Below(f[DistToWater], 2000.0)))
      && (e == Num(1.0) <==> (DistToWater in f && f[DistToWater].Num? && 2000.0 <= f[DistToWater].x < 5000.0))
      && (e == Num(2.0) <==> (DistToWater !in f || !Below(f[DistToWater], 5000.0)))
      && (DistToWater !in f ==> g[WateringPattern] == Text("rare"))
  {
  }

  /** The migration flag is 1 exactly inside the open corridor box. */
  lemma MigrationRouteBox(f: Features, center: LatLng, nowMonth: int)
    requires DistWaterComparable(f)
    ensures SpeciesFeatures(f, center, nowMonth)[ElephantMigrationRoute] == Num(1.0)
            <==> (-2.5 < center.lat < -1.5 && 37.0 < center.lng < 38.0)
    ensures SpeciesFeatures(f, center, nowMonth)[ElephantMigrationRoute] in {Num(0.0), Num(1.0)}
  {
  }

  /** _add_species_features. */
  method AddSpeciesFeatures(cells: seq<FeatureCell>, nowMonth: int)
    requires Distinct(cells)
    requires forall i :: 0 <= i < |cells| ==>
      DistToWater in cells[i].features ==> Comparable(cells[i].features[DistToWater])
    modifies set c | c in cells
    ensures forall i :: 0 <= i < |cells| ==>
      DistToWater in old(cells[i].features) ==> Comparable(old(cells[i].features)[DistToWater])
    ensures forall i :: 0 <= i < |cells| ==>
      cells[i].features == SpeciesFeatures(old(cells[i].features), cells[i].center, nowMonth)
  {
    for i := 0 to |cells|
      invariant forall j :: 0 <= j < i ==>
        cells[j].features == SpeciesFeatures(old(cells[j].features), cells[j].center, nowMonth)
      invariant forall j :: i <= j < |cells| ==> cells[j].features == old(cells[j].features)
    {
      var c := cells[i];
      var isMigrationRoute := 0;
      if -2.5 < c.center.lat < -1.5 && 37.0 < c.center.lng < 38.0 {
        isMigrationRoute := 1;
      }
      var breedingSeason := if nowMonth in {3, 4, 5, 11, 12} then 1 else 0;
      var distToWater := Get(c.features, DistToWater, Num(5000.0));
      var watering, wateringEncoded;
      if Below(distToWater, 2000.0) {
        watering, wateringEncoded := "regular", 0;
      } else if Below(distToWater, 5000.0) {
        watering, wateringEncoded := "seasonal", 1;
      } else {
        watering, wateringEncoded := "rare", 2;
      }
      c.features := c.features[ElephantMigrationRoute := Num(isMigrationRoute as real)]
        [BreedingSeason := Num(breedingSeason as real)]
        [WateringPattern := Text(watering)]
        [WateringPatternEncoded := Num(wateringEncoded as real)];
    }
  }

  // ---------------------------------------------------------------------
  // Derived features
  // ---------------------------------------------------------------------

  /** `1 / (v + c)` is defined: v is infinite, or a number with v + c != 0. */
  predicate Divisible(v: Value, c: real)
  {
    v.Inf? || (v.Num? && v.x + c != 0.0)
  }

  /** What _calculate_derived_features reads, with the types its operators
      need: it indexes these keys directly and divides by the shifted distances. */
  predicate DerivedReady(f: Features)
  {
    ProximityReady(f) && Season in f && DayOfWeek in f
  }

  /** The part of DerivedReady the satellite and proximity steps provide. */
  predicate ProximityReady(f: Features)
  {
    && DistToBoundary in f && Divisible(f[DistToBoundary], 100.0)
    && DistToWater in f && Divisible(f[DistToWater], 50.0)
    && DistToRoad in f && Divisible(f[DistToRoad], 200.0)
    && DistToSettlement in f && Comparable(f[DistToSettlement])
    && Ndvi in f && f[Ndvi].Num?
  }

  /** 1 / (v + c); infinity gives 0. */
  function Reciprocal(v: Value, c: real): Value
    requires Divisible(v, c)
  {
    if v.Inf? then Num(0.0) else Num(1.0 / (v.x + c))
  }

  /** (s + r) / 2000; infinity stays infinite. */
  function Isolation(s: Value, r: Value): Value
    requires Comparable(s) && Comparable(r)
  {
    if s.Num? && r.Num? then Num((s.x + r.x) / 2000.0) else Inf
  }

  function Flag(b: bool): Value
  {
    if b then Num(1.0) else Num(0.0)
  }

  function DerivedFeatures(f: Features): Features
    requires DerivedReady(f)
  {
    f[BoundaryRisk := Reciprocal(f[DistToBoundary], 100.0)]
      [WaterAttraction := Reciprocal(f[DistToWater], 50.0)]
      [AccessEase := Reciprocal(f[DistToRoad], 200.0)]
      [IsolationScore := Isolation(f[DistToSettlement], f[DistToRoad])]
      [DenseVegetation := Flag(f[Ndvi].x > 0.5)]
      [DrySeason := Flag(f[Season] == Text("dry"))]
      [IsWeekend := Flag(f[DayOfWeek] in {Num(5.0), Num(6.0)})]
      [Incidents5kmRadius := Num(0.0)]
      [DaysSinceLastIncident := Num(180.0)]
      [SeasonalIncidentRate := Num(0.05)]
      [IncidentDensity := Num(0.0)]
  }

  /** For non-negative distances the derived risk features are bounded
      reciprocals, the isolation score is non-negative, and the three flags
      are 0/1 indicators of their conditions. */
  lemma DerivedFeatureBounds(f: Features)
    requires DerivedReady(f)
    requires DistanceAtLeast(f[DistToBoundary], 0.0) && DistanceAtLeast(f[DistToWater], 0.0)
    requires DistanceAtLeast(f[DistToRoad], 0.0) && DistanceAtLeast(f[DistToSettlement], 0.0)
    ensures var g := DerivedFeatures(f);
      && g[BoundaryRisk].Num? && 0.0 <= g[BoundaryRisk].x <= 1.0 / 100.0
      && g[WaterAttraction].Num? && 0.0 <= g[WaterAttraction].x <= 1.0 / 50.0
      && g[AccessEase].Num? && 0.0 <= g[AccessEase].x <= 1.0 / 200.0
      && DistanceAtLeast(g[IsolationScore], 0.0)
      && (g[DenseVegetation] == Num(1.0) <==> f[Ndvi].x > 0.5)
      && (g[DrySeason] == Num(1.0) <==> f[Season] == Text("dry"))
      && (g[IsWeekend] == Num(1.0) <==> f[DayOfWeek] in {Num(5.0), Num(6.0)})
  {
    ReciprocalBound(f[DistToBoundary], 100.0);
    ReciprocalBound(f[DistToWater], 50.0);
    ReciprocalBound(f[DistToRoad], 200.0);
  }

  lemma ReciprocalBound(v: Value, c: real)
    requires c > 0.0 && DistanceAtLeast(v, 0.0)
    ensures Divisible(v, c)
    ensures Reciprocal(v, c).Num? && 0.0 <= Reciprocal(v, c).x <= 1.0 / c
  {
    if v.Num? {
      assert v.x + c >= c;
      DivMonotone(1.0, 1.0, v.x + c);
      assert 1.0 / (v.x + c) <= 1.0 / c by {
        assert (1.0 / (v.x + c)) * (v.x + c) == 1.0;
        assert (1.0 / c) * c == 1.0;
      }
    }
  }

  /** Whatever the input, the four historical placeholders come out fixed, and
      every key the step does not write is kept. */
  lemma DerivedPlaceholders(f: Features)
    requires DerivedReady(f)
    ensures var g := DerivedFeatures(f);
      && g[Incidents5kmRadius] == Num(0.0)
      && g[DaysSinceLastIncident] == Num(180.0)
      && g[SeasonalIncidentRate] == Num(0.05)
      && g[IncidentDensity] == Num(0.0)
      && (forall k :: k in f && k !in DerivedKeys ==> k in g && g[k] == f[k])
      && g.Keys == f.Keys + DerivedKeys
  {
  }

  const DerivedKeys: set<FeatureKey> := {
    BoundaryRisk, WaterAttraction, AccessEase, IsolationScore, DenseVegetation,
    DrySeason, IsWeekend, Incidents5kmRadius, DaysSinceLastIncident,
    SeasonalIncidentRate, IncidentDensity}

  /** _calculate_derived_features. */
  method CalculateDerivedFeatures(cells: seq<FeatureCell>)
    requires Distinct(cells)
    requires forall i :: 0 <= i < |cells| ==> DerivedReady(cells[i].features)
    modifies set c | c in cells
    ensures forall i :: 0 <= i < |cells| ==> DerivedReady(old(cells[i].features))
    ensures forall i :: 0 <= i < |cells| ==> cells[i].features == DerivedFeatures(old(cells[i].features))
  {
    for i := 0 to |cells|
      invariant forall j :: 0 <= j < i ==> DerivedReady(old(cells[j].features))
      invariant forall j :: 0 <= j < i ==> cells[j].features == DerivedFeatures(old(cells[j].features))
      invariant forall j :: i <= j < |cells| ==> cells[j].features == old(cells[j].features)
    {
      var features := cells[i].features;
      features := features[BoundaryRisk := Reciprocal(features[DistToBoundary], 100.0)];
      features := features[WaterAttraction := Reciprocal(features[DistToWater], 50.0)];
      features := features[AccessEase := Reciprocal(features[DistToRoad], 200.0)];
      features := features[IsolationScore := Isolation(features[DistToSettlement], features[DistToRoad])];
      features := features[DenseVegetation := Flag(features[Ndvi].x > 0.5)];
      features := features[DrySeason := Flag(features[Season] == Text("dry"))];
      features := features[IsWeekend := Flag(features[DayOfWeek] in {Num(5.0), Num(6.0)})];
      features := features[Incidents5kmRadius := Num(0.0)];
      features := features[DaysSinceLastIncident := Num(180.0)];
      features := features[SeasonalIncidentRate := Num(0.05)];
      features := features[IncidentDensity := Num(0.0)];
      assert features == DerivedFeatures(cells[i].features);
      cells[i].features := features;
    }
  }

  // ---------------------------------------------------------------------
  // The whole pipeline (extract_features_for_cells)
  // ---------------------------------------------------------------------

  /** Everything the pipeline consumes for one cell besides the cell itself. */
  datatype CellInputs = CellInputs(ndvi: NdviSample, draws: Draws, terrain: TerrainSample)

  /** The inputs the pipeline shares across cells. */
  datatype SharedInputs = SharedInputs(imagesAvailable: bool, boundary: seq<LatLng>, hav: Metric,
                                       temporal: TemporalInputs, nowMonth: int)

  ghost predicate WellFormedInputs(shared: SharedInputs, inputs: seq<CellInputs>)
  {
    && NonNegativeMetric(shared.hav)
    && forall i :: 0 <= i < |inputs| ==> DrawsInRange(inputs[i].draws)
  }

  /** The dictionary of one cell after the first five steps. */
  function BeforeDerived(center: LatLng, shared: SharedInputs, input: CellInputs): (f: Features)
    requires NonNegativeMetric(shared.hav) && DrawsInRange(input.draws)
    ensures DerivedReady(f)
  {
    LateSteps(EarlySteps(center, shared, input), center, shared, input)
  }

  /** The satellite and proximity steps of one cell. */
  function EarlySteps(center: LatLng, shared: SharedInputs, input: CellInputs): (f: Features)
    requires NonNegativeMetric(shared.hav) && DrawsInRange(input.draws)
    ensures DistWaterComparable(f) && ProximityReady(f)
  {
    var sat := if shared.imagesAvailable then SatelliteFeatures(input.ndvi) else NoImageryFeatures;
    ProximityDistancesNonNegative(sat, center, shared.boundary, shared.hav, input.draws);
    ProximityFeatures(sat, center, shared.boundary, shared.hav, input.draws)
  }

  /** The temporal, terrain and species steps of one cell. */
  function LateSteps(f: Features, center: LatLng, shared: SharedInputs, input: CellInputs): (g: Features)
    requires DistWaterComparable(f)
    ensures ProximityReady(f) ==> DerivedReady(g)
  {
    LaterStepsKeep(f, shared.temporal, input.terrain, center, shared.nowMonth);
    SpeciesFeatures(TopographicalFeatures(TemporalFeatures(f, shared.temporal), input.terrain), center, shared.nowMonth)
  }

  /** The dictionary of one cell at the end of the pipeline. */
  function CellFeatures(center: LatLng, shared: SharedInputs, input: CellInputs): Features
    requires NonNegativeMetric(shared.hav) && DrawsInRange(input.draws)
  {
    DerivedFeatures(BeforeDerived(center, shared, input))
  }

  /** extract_features_for_cells with the boundary already chosen by
      BoundaryFor (the proximity step makes that choice). */
  method ExtractFeaturesForCells(cells: seq<FeatureCell>, polygon: seq<LatLng>, parkBoundary: Option<seq<LatLng>>,
                                 shared: SharedInputs, inputs: seq<CellInputs>)
    requires Distinct(cells) && |inputs| == |cells|
    requires WellFormedInputs(shared, inputs)
    requires shared.boundary == BoundaryFor(polygon, parkBoundary)
    modifies set c | c in cells
    ensures forall i :: 0 <= i < |cells| ==> cells[i].features == CellFeatures(cells[i].center, shared, inputs[i])
  {
    var ndvi := seq(|inputs|, i requires 0 <= i < |inputs| => inputs[i].ndvi);
    var draws := seq(|inputs|, i requires 0 <= i < |inputs| => inputs[i].draws);
    var terrain := seq(|inputs|, i requires 0 <= i < |inputs| => inputs[i].terrain);
    ExtractSatelliteFeatures(cells, shared.imagesAvailable, ndvi);
    CalculateProximityFeatures(cells, polygon, parkBoundary, shared.hav, draws);
    AddTemporalFeatures(cells, shared.temporal);
    ExtractTopographicalFeatures(cells, terrain);
    forall i | 0 <= i < |cells|
      ensures DistToWater in cells[i].features && Comparable(cells[i].features[DistToWater])
    {
      ProximityDistancesNonNegative(if shared.imagesAvailable then SatelliteFeatures(ndvi[i]) else NoImageryFeatures,
                                    cells[i].center, shared.boundary, shared.hav, draws[i]);
    }
    AddSpeciesFeatures(cells, shared.nowMonth);
    forall i | 0 <= i < |cells|
      ensures cells[i].features == BeforeDerived(cells[i].center, shared, inputs[i])
    {
    }
    CalculateDerivedFeatures(cells);
  }

  // ---------------------------------------------------------------------
  // format_for_model_input
  // ---------------------------------------------------------------------

  /** The 26 keys of the model input, each with the value format_for_model_input
      uses when a cell lacks it. */
  const ModelDefaults: map<FeatureKey, Value> := map[
    Ndvi := Num(0.5),
    VegetationTypeEncoded := Num(2.0),
    DistToBoundary := Num(10000.0),
    DistToWater := Num(5000.0),
    DistToRoad := Num(10000.0),
    DistToSettlement := Num(30000.0),
    Incidents5kmRadius := Num(0.0),
    DaysSinceLastIncident := Num(180.0),
    SeasonalIncidentRate := Num(0.05),
    MoonIllumination := Num(0.5),
    SeasonEncoded := Num(0.0),
    DayOfWeek := Num(3.0),
    Elevation := Num(1000.0),
    Slope := Num(10.0),
    TerrainRuggedness := Num(5.0),
    ElephantMigrationRoute := Num(0.0),
    BreedingSeason := Num(0.0),
    WateringPatternEncoded := Num(1.0),
    BoundaryRisk := Num(0.0),
    WaterAttraction := Num(0.0),
    AccessEase := Num(0.0),
    IsolationScore := Num(0.0),
    DenseVegetation := Num(0.0),
    DrySeason := Num(0.0),
    IsWeekend := Num(0.0),
    IncidentDensity := Num(0.0)]

  /** The model dictionary of one cell (the dictionary literal of
      format_for_model_input); dictionary order is not modelled. */
  function FormatFeatures(f: Features): Features
  {
    map k | k in ModelDefaults :: Get(f, k, ModelDefaults[k])
  }

  /** The output of format_for_model_input for one cell has exactly the 26
      model keys; a key the cell has is passed through, a key it lacks takes
      its default, and keys outside the model are dropped. */
  lemma FormatFeaturesSchema(f: Features)
    ensures FormatFeatures(f).Keys == ModelDefaults.Keys
    ensures forall k :: k in ModelDefaults && k in f ==> FormatFeatures(f)[k] == f[k]
    ensures forall k :: k in ModelDefaults && k !in f ==> FormatFeatures(f)[k] == ModelDefaults[k]
    ensures forall k :: k !in ModelDefaults ==> k !in FormatFeatures(f)
  {
  }

  /** The three dictionary keys the model does not take. */
  lemma ModelKeysExclude()
    ensures VegetationType !in ModelDefaults && Season !in ModelDefaults && WateringPattern !in ModelDefaults
  {
  }

  /** Formatting is idempotent: a formatted dictionary formats to itself. */
  lemma FormatIdempotent(f: Features)
    ensures FormatFeatures(FormatFeatures(f)) == FormatFeatures(f)
  {
  }

  /** The keys each pipeline step writes. */
  const ProximityKeys: set<FeatureKey> := {DistToBoundary, DistToWater, DistToRoad, DistToSettlement}
  const TemporalKeys: set<FeatureKey> := {MoonIllumination, Season, SeasonEncoded, DayOfWeek}
  const TerrainKeys: set<FeatureKey> := {Elevation, Slope, TerrainRuggedness}
  const SpeciesKeys: set<FeatureKey> := {ElephantMigrationRoute, BreedingSeason, WateringPattern, WateringPatternEncoded}

  lemma SatelliteKeys(shared: SharedInputs, input: CellInputs)
    ensures (if shared.imagesAvailable then SatelliteFeatures(input.ndvi) else NoImageryFeatures).Keys ==
      (if shared.imagesAvailable then {Ndvi, VegetationType, VegetationTypeEncoded} else {Ndvi, VegetationType})
  {
  }

  lemma ProximityKeysWritten(f: Features, center: LatLng, boundary: seq<LatLng>, hav: Metric, d: Draws)
    ensures ProximityFeatures(f, center, boundary, hav, d).Keys == f.Keys + ProximityKeys
  {
  }

  lemma TemporalKeysWritten(f: Features, t: TemporalInputs)
    ensures TemporalFeatures(f, t).Keys == f.Keys + TemporalKeys
  {
  }

  lemma TerrainKeysWritten(f: Features, s: TerrainSample)
    ensures TopographicalFeatures(f, s).Keys == f.Keys + TerrainKeys
  {
  }

  lemma SpeciesKeysWritten(f: Features, center: LatLng, nowMonth: int)
    requires DistWaterComparable(f)
    ensures SpeciesFeatures(f, center, nowMonth).Keys == f.Keys + SpeciesKeys
  {
  }

  /** The temporal, terrain and species steps keep every entry outside the
      keys they write, so the species step can compare dist_to_water, and the
      season and weekday the temporal step writes survive the other two. */
  lemma LaterStepsKeep(f: Features, t: TemporalInputs, s: TerrainSample, center: LatLng, nowMonth: int)
    requires DistWaterComparable(f)
    ensures DistWaterComparable(TopographicalFeatures(TemporalFeatures(f, t), s))
    ensures var g := SpeciesFeatures(TopographicalFeatures(TemporalFeatures(f, t), s), center, nowMonth);
      && (forall k :: k in f && k !in TemporalKeys && k !in TerrainKeys && k !in SpeciesKeys ==> k in g && g[k] == f[k])
      && Season in g && DayOfWeek in g
  {
    var temp := TemporalFeatures(f, t);
    assert forall k :: k in f && k !in TemporalKeys ==> k in temp && temp[k] == f[k];
    assert Season in temp && DayOfWeek in temp;
    var topo := TopographicalFeatures(temp, s);
    assert forall k :: k in temp && k !in TerrainKeys ==> k in topo && topo[k] == temp[k];
    assert DistToWater in topo ==> DistToWater in f && topo[DistToWater] == f[DistToWater];
    var g := SpeciesFeatures(topo, center, nowMonth);
    assert forall k :: k in topo && k !in SpeciesKeys ==> k in g && g[k] == topo[k];
  }

  /** The keys after the satellite and proximity steps. */
  lemma EarlyStepsKeys(center: LatLng, shared: SharedInputs, input: CellInputs)
    requires NonNegativeMetric(shared.hav) && DrawsInRange(input.draws)
    ensures EarlySteps(center, shared, input).Keys ==
      (if shared.imagesAvailable then {Ndvi, VegetationType, VegetationTypeEncoded} else {Ndvi, VegetationType})
      + ProximityKeys
    ensures EarlySteps(center, shared, input)[VegetationType] ==
      (if shared.imagesAvailable then SatelliteFeatures(input.ndvi) else NoImageryFeatures)[VegetationType]
  {
    var sat := if shared.imagesAvailable then SatelliteFeatures(input.ndvi) else NoImageryFeatures;
    SatelliteKeys(shared, input);
    ProximityKeysWritten(sat, center, shared.boundary, shared.hav, input.draws);
  }

  /** The keys after the temporal, terrain and species steps; vegetation_type
      passes through them. */
  lemma LateStepsKeys(f: Features, center: LatLng, shared: SharedInputs, input: CellInputs)
    requires DistWaterComparable(f)
    ensures LateSteps(f, center, shared, input).Keys == f.Keys + TemporalKeys + TerrainKeys + SpeciesKeys
    ensures VegetationType in f ==>
      VegetationType in LateSteps(f, center, shared, input) && LateSteps(f, center, shared, input)[VegetationType] == f[VegetationType]
  {
    var temp := TemporalFeatures(f, shared.temporal);
    TemporalKeysWritten(f, shared.temporal);
    var topo := TopographicalFeatures(temp, input.terrain);
    TerrainKeysWritten(temp, input.terrain);
    LaterStepsKeep(f, shared.temporal, input.terrain, center, shared.nowMonth);
    SpeciesKeysWritten(topo, center, shared.nowMonth);
    assert VegetationType !in TemporalKeys && VegetationType !in TerrainKeys && VegetationType !in SpeciesKeys;
  }

  /** The keys of a cell's dictionary before the derived step. */
  lemma BeforeDerivedKeys(center: LatLng, shared: SharedInputs, input: CellInputs)
    requires NonNegativeMetric(shared.hav) && DrawsInRange(input.draws)
    ensures BeforeDerived(center, shared, input).Keys ==
      (if shared.imagesAvailable then {Ndvi, VegetationType, VegetationTypeEncoded} else {Ndvi, VegetationType})
      + ProximityKeys + TemporalKeys + TerrainKeys + SpeciesKeys
  {
    EarlyStepsKeys(center, shared, input);
    LateStepsKeys(EarlySteps(center, shared, input), center, shared, input);
  }

  /** The keys of a cell's dictionary at the end of the pipeline. */
  lemma PipelineKeys(center: LatLng, shared: SharedInputs, input: CellInputs)
    requires NonNegativeMetric(shared.hav) && DrawsInRange(input.draws)
    ensures CellFeatures(center, shared, input).Keys ==
      (if shared.imagesAvailable then {Ndvi, VegetationType, VegetationTypeEncoded} else {Ndvi, VegetationType})
      + ProximityKeys + TemporalKeys + TerrainKeys + SpeciesKeys + DerivedKeys
  {
    BeforeDerivedKeys(center, shared, input);
    DerivedPlaceholders(BeforeDerived(center, shared, input));
  }

  /** Every model key is written by one of the pipeline steps. */
  lemma ModelKeysWritten()
    ensures ModelDefaults.Keys <= {Ndvi, VegetationTypeEncoded} + ProximityKeys + TemporalKeys + TerrainKeys + SpeciesKeys + DerivedKeys
  {
  }

  /** After the whole pipeline, every model key comes from the pipeline
      itself, except the vegetation encoding, which is there exactly when
      imagery was found. */
  lemma PipelineCoversSchema(center: LatLng, shared: SharedInputs, input: CellInputs)
    requires NonNegativeMetric(shared.hav) && DrawsInRange(input.draws)
    ensures forall k :: k in ModelDefaults && k != VegetationTypeEncoded ==> k in CellFeatures(center, shared, input)
    ensures shared.imagesAvailable <==> VegetationTypeEncoded in CellFeatures(center, shared, input)
  {
    PipelineKeys(center, shared, input);
    KeySetCoversModel(CellFeatures(center, shared, input).Keys, shared.imagesAvailable);
  }

  /** Without imagery the model's default vegetation encoding 2 is the index
      of the class (grassland) the pipeline assigned. */
  lemma NoImageryDefaultMatchesClass(center: LatLng, shared: SharedInputs, input: CellInputs)
    requires NonNegativeMetric(shared.hav) && DrawsInRange(input.draws)
    requires !shared.imagesAvailable
    ensures CellFeatures(center, shared, input)[VegetationType] == Text(VegetationClasses[2])
    ensures ModelDefaults[VegetationTypeEncoded] == Num(2.0)
  {
    PipelineKeepsVegetationType(center, shared, input);
  }

  lemma KeySetCoversModel(keys: set<FeatureKey>, imagesAvailable: bool)
    requires keys ==
      (if imagesAvailable then {Ndvi, VegetationType, VegetationTypeEncoded} else {Ndvi, VegetationType})
      + ProximityKeys + TemporalKeys + TerrainKeys + SpeciesKeys + DerivedKeys
    ensures forall k :: k in ModelDefaults && k != VegetationTypeEncoded ==> k in keys
    ensures imagesAvailable <==> VegetationTypeEncoded in keys
  {
    ModelKeysWritten();
    SatelliteKeysOnly(imagesAvailable);
    CoverParts(ModelDefaults.Keys,
               if imagesAvailable then {Ndvi, VegetationType, VegetationTypeEncoded} else {Ndvi, VegetationType},
               ProximityKeys + TemporalKeys + TerrainKeys + SpeciesKeys + DerivedKeys,
               keys, Ndvi, VegetationTypeEncoded);
  }

  /** Only the satellite step writes the vegetation encoding, and it always writes ndvi. */
  lemma SatelliteKeysOnly(imagesAvailable: bool)
    ensures VegetationTypeEncoded !in ProximityKeys + TemporalKeys + TerrainKeys + SpeciesKeys + DerivedKeys
    ensures var first := if imagesAvailable then {Ndvi, VegetationType, VegetationTypeEncoded} else {Ndvi, VegetationType};
      Ndvi in first && (VegetationTypeEncoded in first <==> imagesAvailable)
  {
  }

  /** Set reasoning for KeySetCoversModel, stated on plain sets. */
  lemma CoverParts(md: set<FeatureKey>, first: set<FeatureKey>, later: set<FeatureKey>, keys: set<FeatureKey>,
                   n: FeatureKey, e: FeatureKey)
    requires md <= {n, e} + later && keys == first + later && n in first && e !in later
    ensures forall k :: k in md && k != e ==> k in keys
    ensures e in keys <==> e in first
  {
  }

  /** No step after the satellite one writes vegetation_type. */
  lemma PipelineKeepsVegetationType(center: LatLng, shared: SharedInputs, input: CellInputs)
    requires NonNegativeMetric(shared.hav) && DrawsInRange(input.draws)
    ensures VegetationType in CellFeatures(center, shared, input)
    ensures CellFeatures(center, shared, input)[VegetationType] ==
      (if shared.imagesAvailable then SatelliteFeatures(input.ndvi) else NoImageryFeatures)[VegetationType]
  {
    assert VegetationType !in DerivedKeys;
    EarlyStepsKeys(center, shared, input);
    var early := EarlySteps(center, shared, input);
    assert VegetationType in early.Keys;
    LateStepsKeys(early, center, shared, input);
    var before := BeforeDerived(center, shared, input);
    assert before == LateSteps(early, center, shared, input);
    DerivedPlaceholders(before);
  }


  /** One entry of format_for_model_input's output. */
  datatype ModelInput = ModelInput(cellId: string, center: LatLng, features: Features)

  /** format_for_model_input: one entry per cell, in order. */
  method FormatForModelInput(cells: seq<FeatureCell>) returns (r: seq<ModelInput>)
    ensures |r| == |cells|
    ensures forall i :: 0 <= i < |cells| ==>
      r[i] == ModelInput(cells[i].id, cells[i].center, FormatFeatures(cells[i].features))
  {
    r := [];
    for i := 0 to |cells|
      invariant |r| == i
      invariant forall j :: 0 <= j < i ==> r[j] == ModelInput(cells[j].id, cells[j].center, FormatFeatures(cells[j].features))
    {
      var cell := cells[i];
      var modelInput := FormatFeatures(cell.features);
      r := r + [ModelInput(cell.id, cell.center, modelInput)];
    }
  }
}
