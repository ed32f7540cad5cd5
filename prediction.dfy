/** The alert scorer of the prediction form: four observations (magnitude,
    depth, latitude, longitude) become four capped factors, their sum picks a
    traffic-light alert level, and a fixed catalogue of advisory strings is
    filtered by five independent predicates. The random draw behind the
    reported confidence is the parameter `r`. */
module Prediction {
  import opened Wrappers
  import opened Rounding

  /** The three alert levels, in increasing severity. */
  datatype AlertLevel = Green | Yellow | Red {

    /** The string the scorer stores in `alertLevel`. */
    function Name(): string
    {
      match this
      case Green => "green"
      case Yellow => "yellow"
      case Red => "red"
    }

    /** Position in the order green < yellow < red. */
    function Severity(): nat
    {
      match this
      case Green => 0
      case Yellow => 1
      case Red => 2
    }
  }

  /** The four form fields. */
  datatype Field = Magnitude | Depth | Latitude | Longitude

  /** The form's input record. */
  datatype PredictionInput = PredictionInput(magnitude: real, depth: real, latitude: real, longitude: real)
  {
    function Get(field: Field): real
    {
      match field
      case Magnitude => magnitude
      case Depth => depth
      case Latitude => latitude
      case Longitude => longitude
    }
  }

  /** The record the scorer produces; score and confidence are rounded. */
  datatype PredictionResult = PredictionResult(
    alertLevel: AlertLevel,
    confidence: int,
    riskScore: int,
    recommendations: seq<string>)

  /** The input the form starts with: a magnitude 5.0 event, 10 km deep,
      at the reference city. */
  const DefaultInput := PredictionInput(5.0, 10.0, 37.7749, -122.4194)

  // ---------------------------------------------------------------------
  // The four factors
  // ---------------------------------------------------------------------

  /** `Math.min(magnitude * 6, 40)`: six points per unit of magnitude,
      capped at 40. */
  function MagFactor(magnitude: real): (f: real)
    ensures f <= 40.0 && f <= magnitude * 6.0
    ensures f == 40.0 || f == magnitude * 6.0
  {
    if magnitude * 6.0 <= 40.0 then magnitude * 6.0 else 40.0
  }

  /** `Math.max(20 - depth * 0.5, 0)`: shallow events score up to 20,
      never below 0. */
  function DepthFactor(depth: real): (f: real)
    ensures f >= 0.0 && f >= 20.0 - depth * 0.5
    ensures f == 0.0 || f == 20.0 - depth * 0.5
  {
    if 20.0 - depth * 0.5 >= 0.0 then 20.0 - depth * 0.5 else 0.0
  }

  /** The two Pacific boxes; both bounds of each box are inclusive. */
  predicate InPacificRing(latitude: real, longitude: real)
  {
    (30.0 <= latitude <= 60.0 && -180.0 <= longitude <= -120.0) ||
    (-40.0 <= latitude <= 10.0 && 120.0 <= longitude <= 180.0)
  }

  function Abs(x: real): (a: real)
    ensures a >= 0.0 && (a == x || a == -x)
  {
    if x < 0.0 then -x else x
  }

  /** The urban box around the reference city: strictly less than 2 degrees
      from (37.7749, -122.4194) on each axis. */
  predicate InUrbanArea(latitude: real, longitude: real)
  {
    Abs(latitude - 37.7749) < 2.0 && Abs(longitude + 122.4194) < 2.0
  }

  /** 20 points inside the Pacific boxes, 10 elsewhere. */
  function LocationFactor(latitude: real, longitude: real): (f: real)
    ensures f == 10.0 || f == 20.0
    ensures f == 20.0 <==> InPacificRing(latitude, longitude)
  {
    if InPacificRing(latitude, longitude) then 20.0 else 10.0
  }

  /** 20 points inside the urban box, 5 elsewhere. */
  function PopulationFactor(latitude: real, longitude: real): (f: real)
    ensures f == 5.0 || f == 20.0
    ensures f == 20.0 <==> InUrbanArea(latitude, longitude)
  {
    if InUrbanArea(latitude, longitude) then 20.0 else 5.0
  }

  /** For a non-negative magnitude and depth each factor stays in its
      advertised range: magnitude 0..40, depth 0..20, location 10 or 20,
      population 5 or 20. */
  lemma FactorRanges(input: PredictionInput)
    requires input.magnitude >= 0.0 && input.depth >= 0.0
    ensures 0.0 <= MagFactor(input.magnitude) <= 40.0
    ensures 0.0 <= DepthFactor(input.depth) <= 20.0
    ensures LocationFactor(input.latitude, input.longitude) in {10.0, 20.0}
    ensures PopulationFactor(input.latitude, input.longitude) in {5.0, 20.0}
  {
  }

  /** The unrounded risk score: the sum of the four factors. For a
      non-negative depth it is at most 100, for a non-negative magnitude at
      least 15. */
  function RiskSum(input: PredictionInput): (s: real)
    ensures input.depth >= 0.0 ==> s <= 100.0
    ensures input.magnitude >= 0.0 ==> s >= 15.0
  {
    MagFactor(input.magnitude) + DepthFactor(input.depth)
    + LocationFactor(input.latitude, input.longitude)
    + PopulationFactor(input.latitude, input.longitude)
  }

  // ---------------------------------------------------------------------
  // Tier and confidence
  // ---------------------------------------------------------------------

  /** The tier of an (unrounded) score: red from 70, yellow from 40, green
      below. */
  function TierOf(score: real): (level: AlertLevel)
    ensures level == Red <==> score >= 70.0
    ensures level == Green <==> score < 40.0
  {
    if score >= 70.0 then Red else if score >= 40.0 then Yellow else Green
  }

  /** Lowest confidence of each level's band. */
  function BandLow(level: AlertLevel): int
  {
    match level
    case Red => 85
    case Yellow => 75
    case Green => 60
  }

  /** Width of each level's band: the factor `Math.random()` is scaled by. */
  function BandWidth(level: AlertLevel): int
  {
    match level
    case Red => 10
    case Yellow => 15
    case Green => 20
  }

  /** The unrounded confidence for the draw `r`: it lies in the level's band,
      lowest value included, highest excluded. */
  function ConfidenceDraw(level: AlertLevel, r: real): (c: real)
    requires 0.0 <= r < 1.0
    ensures BandLow(level) as real <= c < (BandLow(level) + BandWidth(level)) as real
  {
    BandLow(level) as real + r * BandWidth(level) as real
  }

  // ---------------------------------------------------------------------
  // Recommendations
  // ---------------------------------------------------------------------

  /** The five advisories the scorer can emit, in the order it tests them. */
  datatype Advisory = Aftershocks | SurfaceImpact | SeismicRegion | DenselyPopulated | Evacuation
  {
    /** The string pushed onto `recommendations`. */
    function Text(): string
    {
      match this
      case Aftershocks => "Monitor for aftershocks"
      case SurfaceImpact => "Increased surface impact expected"
      case SeismicRegion => "High seismic activity region"
      case DenselyPopulated => "Densely populated area - prepare emergency response"
      case Evacuation => "Immediate evacuation protocols may be needed"
    }

    /** Position in the order the scorer tests the advisories. */
    function Rank(): nat
    {
      match this
      case Aftershocks => 0
      case SurfaceImpact => 1
      case SeismicRegion => 2
      case DenselyPopulated => 3
      case Evacuation => 4
    }
  }

  /** The advisories in test order. */
  const Catalogue: seq<Advisory> := [Aftershocks, SurfaceImpact, SeismicRegion, DenselyPopulated, Evacuation]

  /** The five texts are pairwise different, so a text names its advisory. */
  lemma TextInjective(a: Advisory, b: Advisory)
    ensures a.Text() == b.Text() <==> a == b
  {
    if a != b {
      assert |a.Text()| != |b.Text()|;
    }
  }

  /** The predicate that decides whether advisory `a` is emitted. */
  predicate Applies(input: PredictionInput, level: AlertLevel, a: Advisory)
  {
    match a
    case Aftershocks => input.magnitude >= 6.0
    case SurfaceImpact => input.depth < 20.0
    case SeismicRegion => InPacificRing(input.latitude, input.longitude)
    case DenselyPopulated => InUrbanArea(input.latitude, input.longitude)
    case Evacuation => level == Red
  }

  /** The advisories among the first `k` of the catalogue that `applies`
      accepts, in catalogue order; there are at most `k` of them. */
  function Select(applies: Advisory -> bool, k: nat): (advice: seq<Advisory>)
    requires k <= |Catalogue|
    ensures |advice| <= k
  {
    if k == 0 then []
    else Select(applies, k - 1) + (if applies(Catalogue[k - 1]) then [Catalogue[k - 1]] else [])
  }

  /** The catalogue lists each advisory at its rank. */
  lemma CatalogueAtRank(a: Advisory)
    ensures a.Rank() < |Catalogue| && Catalogue[a.Rank()] == a
  {
  }

  /** Every selected advisory ranks below `k`, and ranks strictly increase
      along the selection, so no advisory repeats. */
  lemma {:induction false} SelectOrdered(applies: Advisory -> bool, k: nat)
    requires k <= |Catalogue|
    ensures var advice := Select(applies, k);
      (forall i :: 0 <= i < |advice| ==> advice[i].Rank() < k) &&
      (forall i, j :: 0 <= i < j < |advice| ==> advice[i].Rank() < advice[j].Rank())
  {
    if k > 0 {
      SelectOrdered(applies, k - 1);
      var prev := Select(applies, k - 1);
      var last := if applies(Catalogue[k - 1]) then [Catalogue[k - 1]] else [];
      var advice := prev + last;
      assert Select(applies, k) == advice;
      assert Catalogue[k - 1].Rank() == k - 1 by {
        assert k - 1 == 0 || k - 1 == 1 || k - 1 == 2 || k - 1 == 3 || k - 1 == 4;
      }
      forall i | 0 <= i < |advice| ensures advice[i].Rank() < k {
        if i < |prev| { assert advice[i] == prev[i]; } else { assert advice[i] == Catalogue[k - 1]; }
      }
      forall i, j | 0 <= i < j < |advice| ensures advice[i].Rank() < advice[j].Rank() {
        if j < |prev| {
          assert advice[i] == prev[i] && advice[j] == prev[j];
        } else {
          assert advice[i] == prev[i] && advice[j] == Catalogue[k - 1];
        }
      }
    }
  }

  /** `Applies` for one input and level, as the test `Select` filters by. */
  function AppliesTo(input: PredictionInput, level: AlertLevel): Advisory -> bool
  {
    a => Applies(input, level, a)
  }

  /** The advisories emitted for `input` at `level`. */
  function Advice(input: PredictionInput, level: AlertLevel): seq<Advisory>
  {
    Select(AppliesTo(input, level), |Catalogue|)
  }

  /** The strings of a list of advisories, element by element. */
  function Texts(advice: seq<Advisory>): seq<string>
  {
    seq(|advice|, i requires 0 <= i < |advice| => advice[i].Text())
  }

  /** The recommendation list for `input` at `level`. */
  function Recommendations(input: PredictionInput, level: AlertLevel): seq<string>
  {
    Texts(Advice(input, level))
  }

  lemma {:induction false} SelectMembership(applies: Advisory -> bool, k: nat, a: Advisory)
    requires k <= |Catalogue|
    ensures a in Select(applies, k) <==> a.Rank() < k && applies(a)
  {
    if k > 0 {
      SelectMembership(applies, k - 1, a);
      CatalogueAtRank(a);
    }
  }

  /** Each advisory's text is recommended exactly when its predicate holds. */
  lemma AdviceMembership(input: PredictionInput, level: AlertLevel, a: Advisory)
    ensures a in Advice(input, level) <==> Applies(input, level, a)
    ensures a.Text() in Recommendations(input, level) <==> Applies(input, level, a)
  {
    var advice := Advice(input, level);
    var recs := Recommendations(input, level);
    SelectMembership(AppliesTo(input, level), |Catalogue|, a);
    if a.Text() in recs {
      var i :| 0 <= i < |recs| && recs[i] == a.Text();
      TextInjective(advice[i], a);
    }
    if a in advice {
      var i :| 0 <= i < |advice| && advice[i] == a;
      assert recs[i] == a.Text();
    }
  }

  /** Toggling one predicate leaves the presence of every other entry as it
      was: presence of an entry depends on its own predicate alone. */
  lemma AdvicePresenceIsLocal(x: PredictionInput, lx: AlertLevel, y: PredictionInput, ly: AlertLevel, a: Advisory)
    requires Applies(x, lx, a) == Applies(y, ly, a)
    ensures a.Text() in Recommendations(x, lx) <==> a.Text() in Recommendations(y, ly)
  {
    AdviceMembership(x, lx, a);
    AdviceMembership(y, ly, a);
  }

  /** The recommendations are the texts of advisories in strictly increasing
      catalogue order, so no string repeats and there are at most five. */
  lemma RecommendationsOrdered(input: PredictionInput, level: AlertLevel)
    ensures var advice := Advice(input, level);
      var recs := Recommendations(input, level);
      |recs| == |advice| <= 5 &&
      (forall i :: 0 <= i < |recs| ==> recs[i] == advice[i].Text()) &&
      (forall i, j :: 0 <= i < j < |recs| ==> advice[i].Rank() < advice[j].Rank() && recs[i] != recs[j])
  {
    var advice := Advice(input, level);
    assert advice == Select(AppliesTo(input, level), |Catalogue|);
    SelectOrdered(AppliesTo(input, level), |Catalogue|);
    forall i, j | 0 <= i < j < |advice| ensures advice[i].Text() != advice[j].Text() {
      assert advice[i].Rank() < advice[j].Rank();
      TextInjective(advice[i], advice[j]);
    }
  }

  /** The urban box lies inside the first Pacific box. */
  lemma UrbanAreaInsidePacificRing(latitude: real, longitude: real)
    requires InUrbanArea(latitude, longitude)
    ensures 30.0 <= latitude <= 60.0 && -180.0 <= longitude <= -120.0
    ensures InPacificRing(latitude, longitude)
  {
  }

  /** "Densely populated …" never appears without "High seismic activity
      region" before it. */
  lemma DenselyPopulatedFollowsSeismicRegion(input: PredictionInput, level: AlertLevel)
    ensures var recs := Recommendations(input, level);
      DenselyPopulated.Text() in recs ==>
        exists i, j :: 0 <= i < j < |recs| && recs[i] == SeismicRegion.Text() && recs[j] == DenselyPopulated.Text()
  {
    var advice := Advice(input, level);
    var recs := Recommendations(input, level);
    if DenselyPopulated.Text() in recs {
      AdviceMembership(input, level, DenselyPopulated);
      UrbanAreaInsidePacificRing(input.latitude, input.longitude);
      AdviceMembership(input, level, SeismicRegion);
      var i :| 0 <= i < |advice| && advice[i] == SeismicRegion;
      var j :| 0 <= j < |advice| && advice[j] == DenselyPopulated;
      assert advice == Select(AppliesTo(input, level), |Catalogue|);
      SelectOrdered(AppliesTo(input, level), |Catalogue|);
      assert i < j;
      assert recs[i] == SeismicRegion.Text() && recs[j] == DenselyPopulated.Text();
    }
  }

  // ---------------------------------------------------------------------
  // The scorer
  // ---------------------------------------------------------------------

  /** The advisory block of `predictAlertLevel`: five independent tests,
      each pushing its advisory onto the list when it holds. */
  method GenerateAdvice(input: PredictionInput, alertLevel: AlertLevel) returns (advice: seq<Advisory>)
    ensures advice == Advice(input, alertLevel)
  {
    // After the k-th test the list is Select(applies, k).
    ghost var applies := AppliesTo(input, alertLevel);
    advice := [];
    if input.magnitude >= 6.0 { advice := advice + [Aftershocks]; }
    assert advice == Select(applies, 1);
    if input.depth < 20.0 { advice := advice + [SurfaceImpact]; }
    assert advice == Select(applies, 2);
    if InPacificRing(input.latitude, input.longitude) { advice := advice + [SeismicRegion]; }
    assert advice == Select(applies, 3);
    if InUrbanArea(input.latitude, input.longitude) { advice := advice + [DenselyPopulated]; }
    assert advice == Select(applies, 4);
    if alertLevel == Red { advice := advice + [Evacuation]; }
  }

  /** `predictAlertLevel`: computes the factors, picks the level and the
      confidence band on the unrounded sum, appends the applicable advice in
      catalogue order, and rounds score and confidence last. `r` stands for
      the value `Math.random()` returns. */
  method PredictAlertLevel(input: PredictionInput, r: real) returns (prediction: PredictionResult)
    requires 0.0 <= r < 1.0
    ensures prediction.alertLevel == TierOf(RiskSum(input))
    ensures prediction.riskScore == Round(RiskSum(input))
    ensures prediction.confidence == Round(ConfidenceDraw(prediction.alertLevel, r))
    ensures BandLow(prediction.alertLevel) <= prediction.confidence
              <= BandLow(prediction.alertLevel) + BandWidth(prediction.alertLevel)
    ensures input.magnitude >= 0.0 && input.depth >= 0.0 ==> 15 <= prediction.riskScore <= 100
    ensures prediction.recommendations == Recommendations(input, prediction.alertLevel)
  {
    var alertLevel := Green;
    var riskScore := 0.0;
    var confidence := 0.0;

    var magFactor := MagFactor(input.magnitude);
    var depthFactor := DepthFactor(input.depth);
    var isPacificRing := InPacificRing(input.latitude, input.longitude);
    var locationFactor := if isPacificRing then 20.0 else 10.0;
    var isUrbanArea := InUrbanArea(input.latitude, input.longitude);
    var populationFactor := if isUrbanArea then 20.0 else 5.0;

    riskScore := magFactor + depthFactor + locationFactor + populationFactor;

    if riskScore >= 70.0 {
      alertLevel := Red;
      confidence := 85.0 + r * 10.0;
    } else if riskScore >= 40.0 {
      alertLevel := Yellow;
      confidence := 75.0 + r * 15.0;
    } else {
      alertLevel := Green;
      confidence := 60.0 + r * 20.0;
    }

    var advice := GenerateAdvice(input, alertLevel);

    prediction := PredictionResult(alertLevel, Round(confidence), Round(riskScore), Texts(advice));
    ConfidenceRoundedInBand(alertLevel, r);
  }

  // ---------------------------------------------------------------------
  // Properties of the score, the tier and the confidence
  // ---------------------------------------------------------------------

  /** The rounded confidence lies in the level's band, both ends included:
      [85, 95] for red, [75, 90] for yellow, [60, 80] for green. */
  lemma ConfidenceRoundedInBand(level: AlertLevel, r: real)
    requires 0.0 <= r < 1.0
    ensures BandLow(level) <= Round(ConfidenceDraw(level, r)) <= BandLow(level) + BandWidth(level)
  {
    RoundInHalfOpenBand(ConfidenceDraw(level, r), BandLow(level), BandLow(level) + BandWidth(level));
  }

  /** The magnitude factor reaches its cap exactly from magnitude 40/6 on. */
  lemma MagFactorSaturates(magnitude: real)
    ensures MagFactor(magnitude) == 40.0 <==> magnitude >= 40.0 / 6.0
  {
  }

  /** The depth factor reaches its floor exactly from depth 40 on. */
  lemma DepthFactorVanishes(depth: real)
    ensures DepthFactor(depth) == 0.0 <==> depth >= 40.0
  {
  }

  /** With the other fields fixed, a larger magnitude never lowers the score. */
  lemma RiskSumMonotoneInMagnitude(input: PredictionInput, magnitude: real)
    requires input.magnitude <= magnitude
    ensures RiskSum(input) <= RiskSum(input.(magnitude := magnitude))
  {
  }

  /** With the other fields fixed, a larger depth never raises the score. */
  lemma RiskSumAntitoneInDepth(input: PredictionInput, depth: real)
    requires input.depth <= depth
    ensures RiskSum(input.(depth := depth)) <= RiskSum(input)
  {
  }

  /** A higher score never yields a less severe level. */
  lemma TierMonotone(score: real, higher: real)
    requires score <= higher
    ensures TierOf(score).Severity() <= TierOf(higher).Severity()
  {
  }

  /** A larger magnitude never lowers the alert level. */
  lemma AlertLevelMonotoneInMagnitude(input: PredictionInput, magnitude: real)
    requires input.magnitude <= magnitude
    ensures TierOf(RiskSum(input)).Severity() <= TierOf(RiskSum(input.(magnitude := magnitude))).Severity()
  {
    RiskSumMonotoneInMagnitude(input, magnitude);
    TierMonotone(RiskSum(input), RiskSum(input.(magnitude := magnitude)));
  }

  /** A larger depth never raises the alert level. */
  lemma AlertLevelAntitoneInDepth(input: PredictionInput, depth: real)
    requires input.depth <= depth
    ensures TierOf(RiskSum(input.(depth := depth))).Severity() <= TierOf(RiskSum(input)).Severity()
  {
    RiskSumAntitoneInDepth(input, depth);
    TierMonotone(RiskSum(input.(depth := depth)), RiskSum(input));
  }

  /** The displayed risk score never drops as the magnitude grows. */
  lemma DisplayedScoreMonotoneInMagnitude(input: PredictionInput, magnitude: real)
    requires input.magnitude <= magnitude
    ensures Round(RiskSum(input)) <= Round(RiskSum(input.(magnitude := magnitude)))
  {
    RiskSumMonotoneInMagnitude(input, magnitude);
    RoundMonotone(RiskSum(input), RiskSum(input.(magnitude := magnitude)));
  }

  /** The displayed risk score never rises as the depth grows. */
  lemma DisplayedScoreAntitoneInDepth(input: PredictionInput, depth: real)
    requires input.depth <= depth
    ensures Round(RiskSum(input.(depth := depth))) <= Round(RiskSum(input))
  {
    RiskSumAntitoneInDepth(input, depth);
    RoundMonotone(RiskSum(input.(depth := depth)), RiskSum(input));
  }

  /** The level is chosen before rounding: every sum in [69.5, 70) is shown
      as a risk score of 70 next to a yellow level. */
  lemma DisplayedSeventyCanBeYellow(score: real)
    requires 69.5 <= score < 70.0
    ensures Round(score) == 70 && TierOf(score) == Yellow
  {
  }

  /** An input that reaches that gap: magnitude 7.0 at 10.5 km, at (0, 0),
      sums to 40 + 14.75 + 10 + 5 = 69.75. */
  lemma SeventyYellowExample()
    ensures var input := PredictionInput(7.0, 10.5, 0.0, 0.0);
      RiskSum(input) == 69.75 && Round(RiskSum(input)) == 70 && TierOf(RiskSum(input)) == Yellow
  {
    var input := PredictionInput(7.0, 10.5, 0.0, 0.0);
    assert !InPacificRing(0.0, 0.0) && !InUrbanArea(0.0, 0.0);
    DisplayedSeventyCanBeYellow(RiskSum(input));
  }

  /** The advisories for concrete inputs, unfolded test by test. */
  lemma AdviceOf(input: PredictionInput, level: AlertLevel)
    ensures Advice(input, level)
      == (if Applies(input, level, Aftershocks) then [Aftershocks] else [])
       + (if Applies(input, level, SurfaceImpact) then [SurfaceImpact] else [])
       + (if Applies(input, level, SeismicRegion) then [SeismicRegion] else [])
       + (if Applies(input, level, DenselyPopulated) then [DenselyPopulated] else [])
       + (if Applies(input, level, Evacuation) then [Evacuation] else [])
  {
    var applies := AppliesTo(input, level);
    var s1 := Select(applies, 1);
    var s2 := Select(applies, 2);
    var s3 := Select(applies, 3);
    var s4 := Select(applies, 4);
    assert s1 == (if Applies(input, level, Aftershocks) then [Aftershocks] else []);
    assert s2 == s1 + (if Applies(input, level, SurfaceImpact) then [SurfaceImpact] else []);
    assert s3 == s2 + (if Applies(input, level, SeismicRegion) then [SeismicRegion] else []);
    assert s4 == s3 + (if Applies(input, level, DenselyPopulated) then [DenselyPopulated] else []);
  }

  /** The form's default input scores 30 + 15 + 20 + 20 = 85: red, with every
      advisory but the aftershock one. */
  lemma DefaultInputIsRed()
    ensures RiskSum(DefaultInput) == 85.0 && TierOf(RiskSum(DefaultInput)) == Red
    ensures Advice(DefaultInput, Red) == [SurfaceImpact, SeismicRegion, DenselyPopulated, Evacuation]
  {
    assert InPacificRing(37.7749, -122.4194) && InUrbanArea(37.7749, -122.4194);
    AdviceOf(DefaultInput, Red);
  }

  /** Magnitude 7.1 at 8 km, at (39, 35): outside both Pacific boxes and the
      urban box, it scores 40 + 16 + 10 + 5 = 71, red, with the aftershock,
      surface-impact and evacuation advisories. */
  lemma AnatolianInputIsRed()
    ensures var input := PredictionInput(7.1, 8.0, 39.0, 35.0);
      RiskSum(input) == 71.0 && TierOf(RiskSum(input)) == Red &&
      Advice(input, Red) == [Aftershocks, SurfaceImpact, Evacuation]
  {
    var input := PredictionInput(7.1, 8.0, 39.0, 35.0);
    assert !InPacificRing(39.0, 35.0) && !InUrbanArea(39.0, 35.0);
    AdviceOf(input, Red);
  }

  /** Magnitude 4.9 at 78 km, at (0, -25): 29.4 + 0 + 10 + 5 = 44.4, shown as
      44, yellow. */
  lemma MidAtlanticInputIsYellow()
    ensures var input := PredictionInput(4.9, 78.0, 0.0, -25.0);
      RiskSum(input) == 44.4 && Round(RiskSum(input)) == 44 && TierOf(RiskSum(input)) == Yellow
  {
    assert !InPacificRing(0.0, -25.0) && !InUrbanArea(0.0, -25.0);
  }

  // ---------------------------------------------------------------------
  // The form
  // ---------------------------------------------------------------------

  /** `parseFloat(value) || 0`, given what `parseFloat` returned (`None` for
      `NaN`): an unparsable or zero input is stored as 0, any other number
      as it is, negative values included. */
  function OrZero(parsed: Option<real>): (v: real)
    ensures v == 0.0 <==> parsed == None || parsed == Some(0.0)
    ensures parsed.Some? ==> v == parsed.value
  {
    match parsed
    case None => 0.0
    case Some(x) => if x == 0.0 then 0.0 else x
  }

  /** `handleInputChange`: the new input record has `field` set to the parsed
      value and every other field as before. */
  function HandleInputChange(prev: PredictionInput, field: Field, parsed: Option<real>): (next: PredictionInput)
    ensures next.Get(field) == OrZero(parsed)
    ensures forall other: Field :: other != field ==> next.Get(other) == prev.Get(other)
  {
    var value := OrZero(parsed);
    match field
    case Magnitude => prev.(magnitude := value)
    case Depth => prev.(depth := value)
    case Latitude => prev.(latitude := value)
    case Longitude => prev.(longitude := value)
  }

  /** Two records that agree on every field are the same record. */
  lemma InputExtensionality(x: PredictionInput, y: PredictionInput)
    requires forall field: Field :: x.Get(field) == y.Get(field)
    ensures x == y
  {
    assert x.Get(Magnitude) == y.Get(Magnitude) && x.Get(Depth) == y.Get(Depth);
    assert x.Get(Latitude) == y.Get(Latitude) && x.Get(Longitude) == y.Get(Longitude);
  }

  /** Re-entering a field's current (non-zero or zero) value changes nothing. */
  lemma HandleInputChangeRestores(prev: PredictionInput, field: Field)
    ensures HandleInputChange(prev, field, Some(prev.Get(field))) == prev
  {
    InputExtensionality(HandleInputChange(prev, field, Some(prev.Get(field))), prev);
  }

  /** Of two edits to one field, the later one wins. */
  lemma HandleInputChangeLastWins(prev: PredictionInput, field: Field, first: Option<real>, second: Option<real>)
    ensures HandleInputChange(HandleInputChange(prev, field, first), field, second)
         == HandleInputChange(prev, field, second)
  {
    InputExtensionality(HandleInputChange(HandleInputChange(prev, field, first), field, second),
                        HandleInputChange(prev, field, second));
  }

  /** Edits to two different fields commute. */
  lemma HandleInputChangeCommutes(prev: PredictionInput, f: Field, p: Option<real>, g: Field, q: Option<real>)
    requires f != g
    ensures HandleInputChange(HandleInputChange(prev, f, p), g, q)
         == HandleInputChange(HandleInputChange(prev, g, q), f, p)
  {
    InputExtensionality(HandleInputChange(HandleInputChange(prev, f, p), g, q),
                        HandleInputChange(HandleInputChange(prev, g, q), f, p));
  }

  const MutedColor := "bg-muted text-muted-foreground"

  /** `getAlertColor`: the badge classes for a level name; any other string
      gets the muted classes. */
  function AlertColor(level: string): (classes: string)
    ensures classes == MutedColor <==> level != "red" && level != "yellow" && level != "green"
  {
    match level
    case "red" => "bg-destructive text-destructive-foreground"
    case "yellow" => "bg-warning text-warning-foreground"
    case "green" => "bg-success text-success-foreground"
    case _ => MutedColor
  }

  /** The three levels the scorer produces get three different, non-muted
      colours; every other string gets the muted one. */
  lemma AlertColorOfLevels(level: AlertLevel, other: AlertLevel, unknown: string)
    requires unknown != "red" && unknown != "yellow" && unknown != "green"
    ensures AlertColor(level.Name()) != MutedColor
    ensures level != other ==> AlertColor(level.Name()) != AlertColor(other.Name())
    ensures AlertColor(unknown) == MutedColor
  {
  }
}
