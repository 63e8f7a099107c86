/** The deterministic parts of the two analysis endpoints: the insurance
    quote built from a predicted insurance risk score, and, for the map
    analysis over a websocket, the admission of the requested polygon, the
    mock scoring of the grid cells, the GeoJSON features and the summary. */
module Api {
  import opened Common
  import opened GeeSatellite

  // ---------------------------------------------------------------------
  // Insurance quote (analyze_insurance_risk)
  // ---------------------------------------------------------------------

  /** The yearly premium in KES for an insurance risk score. */
  function Premium(r: real): real { 50000.0 + r * 1500.0 }

  /** The largest insured amount in KES. */
  function MaxCoverage(r: real): real { 5000000.0 - r * 45000.0 }

  /** The deductible in KES. */
  function Deductible(r: real): real { 10000.0 + r * 400.0 }

  /** For a score in [0, 100] the three amounts stay in the ranges the code
      documents, and they stay there once rounded to whole shillings. */
  lemma QuoteAmountsInRange(r: real)
    requires 0.0 <= r <= 100.0
    ensures 50000.0 <= Premium(r) <= 200000.0
    ensures 500000.0 <= MaxCoverage(r) <= 5000000.0
    ensures 10000.0 <= Deductible(r) <= 50000.0
    ensures 50000.0 <= RoundDecimals(Premium(r), 0) <= 200000.0
    ensures 500000.0 <= RoundDecimals(MaxCoverage(r), 0) <= 5000000.0
    ensures 10000.0 <= RoundDecimals(Deductible(r), 0) <= 50000.0
  {
    RoundDecimalsWithin(Premium(r), 0, 50000, 200000);
    RoundDecimalsWithin(MaxCoverage(r), 0, 500000, 5000000);
    RoundDecimalsWithin(Deductible(r), 0, 10000, 50000);
  }

  /** A riskier score never costs less, never covers more and never lowers
      the deductible, before and after rounding. */
  lemma QuoteAmountsMonotone(r1: real, r2: real)
    requires r1 <= r2
    ensures Premium(r1) <= Premium(r2) && MaxCoverage(r2) <= MaxCoverage(r1) && Deductible(r1) <= Deductible(r2)
    ensures RoundDecimals(Premium(r1), 0) <= RoundDecimals(Premium(r2), 0)
    ensures RoundDecimals(MaxCoverage(r2), 0) <= RoundDecimals(MaxCoverage(r1), 0)
    ensures RoundDecimals(Deductible(r1), 0) <= RoundDecimals(Deductible(r2), 0)
  {
    RoundDecimalsMonotone(Premium(r1), Premium(r2), 0);
    RoundDecimalsMonotone(MaxCoverage(r2), MaxCoverage(r1), 0);
    RoundDecimalsMonotone(Deductible(r1), Deductible(r2), 0);
  }

  /** The policy offered for a score. */
  function PolicyType(r: real): string
  {
    if r > 80.0 then "Uninsurable"
    else if r > 60.0 then "High Risk"
    else if r < 30.0 then "Premium"
    else "Standard"
  }

  /** Each policy type is exactly one band of scores. */
  lemma PolicyTypeBands(r: real)
    ensures PolicyType(r) == "Uninsurable" <==> r > 80.0
    ensures PolicyType(r) == "High Risk" <==> 60.0 < r <= 80.0
    ensures PolicyType(r) == "Standard" <==> 30.0 <= r <= 60.0
    ensures PolicyType(r) == "Premium" <==> r < 30.0
  {
  }

  /** The position of a policy type from the best risk to the worst. */
  function PolicyRank(policy: string): nat
  {
    if policy == "Premium" then 0
    else if policy == "Standard" then 1
    else if policy == "High Risk" then 2
    else 3
  }

  /** A riskier score never gets a better policy. */
  lemma PolicyTypeMonotone(r1: real, r2: real)
    requires r1 <= r2
    ensures PolicyRank(PolicyType(r1)) <= PolicyRank(PolicyType(r2))
  {
  }

  /** The advice given with a quote. */
  function RecommendedActions(r: real): seq<string>
  {
    if r > 70.0 then
      ["Consider drought-resistant crop varieties",
       "Implement soil conservation measures",
       "Diversify crop portfolio to reduce risk"]
    else if r > 50.0 then
      ["Monitor weather forecasts regularly",
       "Maintain adequate irrigation systems"]
    else
      ["Continue current best practices",
       "Consider expanding coverage area"]
  }

  /** Three actions above 70, two otherwise, and the advice between 50 and 70
      differs from the advice at 50 and below. */
  lemma RecommendedActionsCount(r: real)
    ensures |RecommendedActions(r)| == 3 <==> r > 70.0
    ensures |RecommendedActions(r)| == 2 <==> r <= 70.0
    ensures (50.0 < r <= 70.0) <==> RecommendedActions(r)[0] == "Monitor weather forecasts regularly"
  {
  }

  /** The context values of the quote's request: data_service's values with
      the request's overrides applied. */
  datatype Context = Context(weatherVolatility: real, yieldStability: real, soilQuality: real,
                             marketStability: real, claimsHistoryIndex: real)

  /** The impact a factor is shown with. */
  datatype Impact = HighImpact | LowImpact

  /** One explanatory factor of the quote; its formatted value is not modelled. */
  datatype QuoteFactor = QuoteFactor(name: string, impact: Impact)

  function ImpactIf(high: bool): Impact { if high then HighImpact else LowImpact }

  /** The six explanatory factors, in order. */
  function QuoteFactors(agriRiskScore: real, ctx: Context): (fs: seq<QuoteFactor>)
  {
    [QuoteFactor("Agricultural Risk", ImpactIf(agriRiskScore > 60.0)),
     QuoteFactor("Weather Volatility", ImpactIf(ctx.weatherVolatility > 0.6)),
     QuoteFactor("Yield Stability", ImpactIf(ctx.yieldStability < 0.4)),
     QuoteFactor("Soil Quality", ImpactIf(ctx.soilQuality < 0.5)),
     QuoteFactor("Market Stability", ImpactIf(ctx.marketStability < 0.5)),
     QuoteFactor("Claims History", ImpactIf(ctx.claimsHistoryIndex > 0.6))]
  }

  /** A factor is shown as high exactly when its value is on the risky side
      of its threshold: high for the risks, low for the stabilities. */
  lemma QuoteFactorsImpact(agriRiskScore: real, ctx: Context)
    ensures var fs := QuoteFactors(agriRiskScore, ctx);
      && |fs| == 6
      && (fs[0].impact == HighImpact <==> agriRiskScore > 60.0)
      && (fs[1].impact == HighImpact <==> ctx.weatherVolatility > 0.6)
      && (fs[2].impact == HighImpact <==> ctx.yieldStability < 0.4)
      && (fs[3].impact == HighImpact <==> ctx.soilQuality < 0.5)
      && (fs[4].impact == HighImpact <==> ctx.marketStability < 0.5)
      && (fs[5].impact == HighImpact <==> ctx.claimsHistoryIndex > 0.6)
  {
  }

  /** The response of analyze_insurance_risk. */
  datatype Quote = Quote(riskScore: real, premium: real, policyType: string, maxCoverage: real,
                         deductible: real, factors: seq<QuoteFactor>, context: Context,
                         coveragePeriod: string, recommendedActions: seq<string>)

  const CoveragePeriod: string := "12 months (Annual)"

  /** Lines 176-229: the quote for the predicted score r; the score is shown
      to one decimal and the amounts to whole shillings, while the policy and
      the advice use the unrounded score. */
  function InsuranceQuote(r: real, agriRiskScore: real, ctx: Context): (q: Quote)
  {
    Quote(RoundDecimals(r, 1), RoundDecimals(Premium(r), 0), PolicyType(r),
          RoundDecimals(MaxCoverage(r), 0), RoundDecimals(Deductible(r), 0),
          QuoteFactors(agriRiskScore, ctx), ctx, CoveragePeriod, RecommendedActions(r))
  }

  /** A quote for a score in [0, 100] shows a score in [0, 100] and amounts in
      the documented ranges; a score above 80 is quoted as uninsurable with
      the three-item advice. */
  lemma InsuranceQuoteInRange(r: real, agriRiskScore: real, ctx: Context)
    requires 0.0 <= r <= 100.0
    ensures var q := InsuranceQuote(r, agriRiskScore, ctx);
      && 0.0 <= q.riskScore <= 100.0
      && 50000.0 <= q.premium <= 200000.0
      && 500000.0 <= q.maxCoverage <= 5000000.0
      && 10000.0 <= q.deductible <= 50000.0
      && (r > 80.0 ==> q.policyType == "Uninsurable" && |q.recommendedActions| == 3)
  {
    RoundDecimalsWithin(r, 1, 0, 100);
    QuoteAmountsInRange(r);
  }

  // ---------------------------------------------------------------------
  // Map analysis (analyze_risk_websocket)
  // ---------------------------------------------------------------------

  /** The requested location: its type and, for a custom one, its polygon. */
  datatype LocationRequest = LocationRequest(kind: string, polygon: Option<seq<LatLng>>)

  /** Why the analysis ends with an error message instead of a result. */
  datatype Rejection =
      /** No polygon, or fewer than three vertices. */
      InvalidPolygon
      /** The polygon's area exceeds MaxAreaKm2. */
    | AreaTooLarge(areaKm2: real)
      /** The handler's catch-all: a location that is not custom leaves the
          polygon unbound, and reading it raises. */
    | AnalysisFailed

  /** The largest area analysed, in km². */
  const MaxAreaKm2: real := 5000.0

  /** Lines 260-282: the polygon to analyse and its area, given the area
      function of the satellite module. */
  function Admit(loc: LocationRequest, area: seq<LatLng> -> real): (r: Result<(seq<LatLng>, real), Rejection>)
    ensures r.Success? <==>
      loc.kind == "custom" && loc.polygon.Some? && |loc.polygon.value| >= 3 && area(loc.polygon.value) <= MaxAreaKm2
    ensures r.Success? ==> r.value == (loc.polygon.value, area(loc.polygon.value))
    ensures r == Failure(InvalidPolygon) <==>
      loc.kind == "custom" && (loc.polygon.None? || |loc.polygon.value| < 3)
    ensures r.Failure? && r.error.AreaTooLarge? ==> r.error.areaKm2 > MaxAreaKm2
  {
    if loc.kind != "custom" then Failure(AnalysisFailed)
    else if loc.polygon.None? || |loc.polygon.value| < 3 then Failure(InvalidPolygon)
    else
      var a := area(loc.polygon.value);
      if a > MaxAreaKm2 then Failure(AreaTooLarge(a)) else Success((loc.polygon.value, a))
  }

  /** The level a mock score is labelled with. */
  datatype Level = Low | Medium | High

  function LevelText(l: Level): string
  {
    match l
    case Low => "Low"
    case Medium => "Medium"
    case High => "High"
  }

  /** Lines 425-427. */
  function MockLevel(score: int): Level
  {
    if score > 75 then High else if score > 50 then Medium else Low
  }

  /** The label bands: above 75 high, above 50 medium, otherwise low. */
  lemma MockLevelBands(score: int)
    ensures MockLevel(score) == High <==> score > 75
    ensures MockLevel(score) == Medium <==> 50 < score <= 75
    ensures MockLevel(score) == Low <==> score <= 50
  {
  }

  /** The factor names the generator samples two of for a cell above 50. */
  const PossibleFactors: seq<string> := ["Drought Stress", "Pest Susceptibility", "Market Volatility", "Soil Degradation"]

  /** What the random generator, seeded with the cell's index, yields for a
      cell: `randint(20, 95)` and `sample(PossibleFactors, k=2)`. */
  datatype Draw = Draw(score: int, sample: seq<string>)

  /** The ranges of the two calls: a score in [20, 95] and two distinct
      names from PossibleFactors. */
  predicate DrawInRange(d: Draw)
  {
    20 <= d.score <= 95 && |d.sample| == 2 && d.sample[0] != d.sample[1]
    && d.sample[0] in PossibleFactors && d.sample[1] in PossibleFactors
  }

  /** A grid cell with its mock risk. */
  datatype ScoredCell = ScoredCell(cell: GridCell, riskScore: int, riskLevel: Level, riskFactors: seq<string>)

  /** The mock risk of one cell: the drawn score, its label, and the drawn
      factors only for a score above 50. */
  function ScoreCell(cell: GridCell, d: Draw): (s: ScoredCell)
    ensures s.cell == cell && s.riskScore == d.score && s.riskLevel == MockLevel(d.score)
    ensures s.riskFactors == [] <==> d.score <= 50 || d.sample == []
    ensures d.score > 50 ==> s.riskFactors == d.sample
  {
    ScoredCell(cell, d.score, MockLevel(d.score), if d.score > 50 then d.sample else [])
  }

  /** Appending the next cell's scored record extends a scored prefix. */
  lemma ScoredPrefix(scored: seq<ScoredCell>, s: ScoredCell, cells: seq<GridCell>, draw: nat -> Draw)
    requires |scored| < |cells|
    requires forall k :: 0 <= k < |scored| ==> scored[k] == ScoreCell(cells[k], draw(k))
    requires s == ScoreCell(cells[|scored|], draw(|scored|))
    ensures forall k :: 0 <= k < |scored| + 1 ==> (scored + [s])[k] == ScoreCell(cells[k], draw(k))
  {
  }

  /** Lines 419-441: the i-th cell is scored with the draw of seed i. */
  method ScoreCells(cells: seq<GridCell>, draw: nat -> Draw) returns (scored: seq<ScoredCell>)
    requires forall i :: 0 <= i < |cells| ==> DrawInRange(draw(i))
    ensures |scored| == |cells|
    ensures forall i :: 0 <= i < |cells| ==> scored[i] == ScoreCell(cells[i], draw(i))
    ensures forall i :: 0 <= i < |cells| ==>
      20 <= scored[i].riskScore <= 95 && (|scored[i].riskFactors| == 2 <==> scored[i].riskScore > 50)
  {
    scored := [];
    var i := 0;
    while i < |cells|
      invariant 0 <= i <= |cells|
      invariant |scored| == i
      invariant forall k :: 0 <= k < i ==> scored[k] == ScoreCell(cells[k], draw(k))
    {
      var s := ScoreCell(cells[i], draw(i));
      ScoredPrefix(scored, s, cells, draw);
      scored := scored + [s];
      i := i + 1;
    }
    forall k | 0 <= k < |cells|
      ensures 20 <= scored[k].riskScore <= 95 && (|scored[k].riskFactors| == 2 <==> scored[k].riskScore > 50)
    {
      assert DrawInRange(draw(k));
    }
  }

  /** A GeoJSON feature of the response. */
  datatype MapFeature = MapFeature(kind: string, id: string, geometryKind: string,
                                   coordinates: seq<seq<seq<real>>>,
                                   riskScore: int, riskLevel: Level, factors: seq<string>)

  /** The outline of a cell's bounds as [lng, lat] positions: south-west,
      south-east, north-east, north-west and south-west again. */
  function Ring(b: Bounds): seq<seq<real>>
  {
    var sw := b.southWest;
    var ne := b.northEast;
    [[sw.lng, sw.lat], [ne.lng, sw.lat], [ne.lng, ne.lat], [sw.lng, ne.lat], [sw.lng, sw.lat]]
  }

  /** Twice the signed area the shoelace formula gives a ring of [x, y]
      positions; positive for a counter-clockwise ring. */
  function Shoelace(ring: seq<seq<real>>): real
    requires forall i :: 0 <= i < |ring| ==> |ring[i]| == 2
    decreases |ring|
  {
    if |ring| < 2 then 0.0
    else ring[0][0] * ring[1][1] - ring[1][0] * ring[0][1] + Shoelace(ring[1..])
  }

  /** The ring is closed, has five [lng, lat] positions, walks the edges of
      the bounds one axis at a time, and encloses the bounds' area with
      counter-clockwise orientation. */
  lemma RingShape(b: Bounds)
    ensures var ring := Ring(b);
      && |ring| == 5 && ring[0] == ring[4]
      && (forall i :: 0 <= i < 5 ==>
            && |ring[i]| == 2
            && (ring[i][0] == b.southWest.lng || ring[i][0] == b.northEast.lng)
            && (ring[i][1] == b.southWest.lat || ring[i][1] == b.northEast.lat))
      && (forall i :: 0 <= i < 4 ==> ring[i][0] == ring[i + 1][0] || ring[i][1] == ring[i + 1][1])
      && Shoelace(ring) == 2.0 * (b.northEast.lng - b.southWest.lng) * (b.northEast.lat - b.southWest.lat)
  {
    var ring := Ring(b);
    var x0, y0, x1, y1 := b.southWest.lng, b.southWest.lat, b.northEast.lng, b.northEast.lat;
    assert ring[4..] == [[x0, y0]];
    assert ring[3..][1..] == ring[4..];
    assert ring[2..][1..] == ring[3..];
    assert ring[1..][1..] == ring[2..];
    assert Shoelace(ring[4..]) == 0.0;
    assert Shoelace(ring[3..]) == x0 * y0 - x0 * y1;
    assert Shoelace(ring[2..]) == x1 * y1 - x0 * y1 + x0 * y0 - x0 * y1;
    assert Shoelace(ring[1..]) == x1 * y1 - x1 * y0 + Shoelace(ring[2..]);
    assert Shoelace(ring) == x0 * y0 - x1 * y0 + Shoelace(ring[1..]);
  }

  /** The feature of one scored cell. */
  function CellFeature(s: ScoredCell): (f: MapFeature)
    ensures f.kind == "Feature" && f.geometryKind == "Polygon" && f.id == s.cell.id
    ensures |f.coordinates| == 1 && f.coordinates[0] == Ring(s.cell.bounds)
    ensures f.riskScore == s.riskScore && f.riskLevel == s.riskLevel && f.factors == s.riskFactors
  {
    MapFeature("Feature", s.cell.id, "Polygon", [Ring(s.cell.bounds)], s.riskScore, s.riskLevel, s.riskFactors)
  }

  /** Lines 444-470: one feature per scored cell, in order. */
  method BuildFeatures(scored: seq<ScoredCell>) returns (features: seq<MapFeature>)
    ensures |features| == |scored|
    ensures forall i :: 0 <= i < |scored| ==> features[i] == CellFeature(scored[i])
  {
    features := [];
    for i := 0 to |scored|
      invariant |features| == i
      invariant forall k :: 0 <= k < i ==> features[k] == CellFeature(scored[k])
    {
      features := features + [CellFeature(scored[i])];
    }
  }

  /** The number of scores satisfying p. */
  function CountWhere(scores: seq<int>, p: int -> bool): (n: nat)
    ensures n <= |scores|
  {
    if |scores| == 0 then 0
    else (if p(scores[0]) then 1 else 0) + CountWhere(scores[1..], p)
  }

  /** The summary's three classes of scores. */
  predicate CountedHigh(s: int) { s >= 75 }
  predicate CountedMedium(s: int) { 50 <= s < 75 }
  predicate CountedLow(s: int) { s < 50 }

  function Sum(scores: seq<int>): int
  {
    if |scores| == 0 then 0 else scores[0] + Sum(scores[1..])
  }

  /** The summary of the response. */
  datatype Summary = Summary(totalCells: nat, highRiskCells: nat, mediumRiskCells: nat, lowRiskCells: nat,
                             averageRisk: real, areaKm2: real)

  /** Lines 473-476 and 493-499. */
  function Summarize(scores: seq<int>, areaKm2: real): (s: Summary)
  {
    Summary(|scores|, CountWhere(scores, CountedHigh), CountWhere(scores, CountedMedium),
            CountWhere(scores, CountedLow),
            if |scores| == 0 then 0.0 else RoundDecimals(Sum(scores) as real / |scores| as real, 1),
            RoundDecimals(areaKm2, 2))
  }

  /** The high, medium and low counts partition the cells. */
  lemma {:induction false} CountsPartition(scores: seq<int>)
    ensures CountWhere(scores, CountedHigh) + CountWhere(scores, CountedMedium) + CountWhere(scores, CountedLow)
            == |scores|
  {
    if |scores| > 0 {
      CountsPartition(scores[1..]);
    }
  }

  /** Every score between lo and hi keeps the sum between n * lo and n * hi. */
  lemma {:induction false} SumBetween(scores: seq<int>, lo: int, hi: int)
    requires forall i :: 0 <= i < |scores| ==> lo <= scores[i] <= hi
    ensures |scores| * lo <= Sum(scores) <= |scores| * hi
  {
    if |scores| > 0 {
      SumBetween(scores[1..], lo, hi);
    }
  }

  /** The summary's totals add up, and with every score between two integers
      lo and hi the average lies between them too; with no cells it is 0. */
  lemma SummaryConsistent(scores: seq<int>, areaKm2: real, lo: int, hi: int)
    requires forall i :: 0 <= i < |scores| ==> lo <= scores[i] <= hi
    ensures var s := Summarize(scores, areaKm2);
      && s.highRiskCells + s.mediumRiskCells + s.lowRiskCells == s.totalCells
      && (|scores| == 0 ==> s.averageRisk == 0.0)
      && (|scores| > 0 ==> lo as real <= s.averageRisk <= hi as real)
  {
    CountsPartition(scores);
    if |scores| > 0 {
      SumBetween(scores, lo, hi);
      MeanBetween(Sum(scores), |scores|, lo, hi);
      RoundDecimalsWithin(Sum(scores) as real / |scores| as real, 1, lo, hi);
    }
  }

  /** `[c['risk_score'] for c in cells_with_risk]`. */
  function Scores(scored: seq<ScoredCell>): (scores: seq<int>)
    ensures |scores| == |scored|
    ensures forall i :: 0 <= i < |scored| ==> scores[i] == scored[i].riskScore
  {
    seq(|scored|, i requires 0 <= i < |scored| => scored[i].riskScore)
  }

  /** The summary of mock-scored cells: the counts add up, and the average
      of scores drawn from [20, 95] lies in [20, 95]. */
  lemma MockSummaryInRange(cells: seq<GridCell>, draw: nat -> Draw, scored: seq<ScoredCell>, areaKm2: real)
    requires forall i :: 0 <= i < |cells| ==> DrawInRange(draw(i))
    requires |scored| == |cells| && forall i :: 0 <= i < |cells| ==> scored[i] == ScoreCell(cells[i], draw(i))
    ensures var s := Summarize(Scores(scored), areaKm2);
      s.highRiskCells + s.mediumRiskCells + s.lowRiskCells == s.totalCells == |cells|
      && (|cells| > 0 ==> 20.0 <= s.averageRisk <= 95.0)
  {
    var scores := Scores(scored);
    assert forall i :: 0 <= i < |scores| ==> 20 <= scores[i] <= 95 by {
      forall i | 0 <= i < |scores| ensures 20 <= scores[i] <= 95 {
        assert DrawInRange(draw(i));
      }
    }
    SummaryConsistent(scores, areaKm2, 20, 95);
  }

  /** A sum between n * lo and n * hi has its mean between lo and hi. */
  lemma MeanBetween(sum: int, n: nat, lo: int, hi: int)
    requires n > 0 && n * lo <= sum <= n * hi
    ensures lo as real <= sum as real / n as real <= hi as real
  {
    var m := n as real;
    assert (n * lo) as real == m * lo as real;
    assert (n * hi) as real == m * hi as real;
    DivMonotone(m * lo as real, sum as real, m);
    DivMonotone(sum as real, m * hi as real, m);
  }

  /** The label and the summary class agree on every score except the two
      boundaries: 75 is labelled medium but counted as high, and 50 is
      labelled low but counted as medium. */
  lemma LabelsAgreeWithCountsExceptBoundaries(score: int)
    ensures score != 75 && score != 50 ==>
      (MockLevel(score) == High <==> CountedHigh(score))
      && (MockLevel(score) == Medium <==> CountedMedium(score))
      && (MockLevel(score) == Low <==> CountedLow(score))
    ensures score == 75 ==> MockLevel(score) == Medium && CountedHigh(score)
    ensures score == 50 ==> MockLevel(score) == Low && CountedMedium(score)
  {
  }
}
