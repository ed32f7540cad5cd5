# Earthquake alert scorer: a Dafny model

This project models the logic of a small earthquake-alert web dashboard.
It has three parts:

- **The alert scorer** (`EarthquakePrediction.tsx`), module `Prediction`.
  An observation has a magnitude, a depth, a latitude and a longitude. The
  scorer adds four factors into a risk score:
  - magnitude: six points per unit, capped at 40;
  - depth: 20 minus half the depth, floored at 0;
  - location: 20 inside two Pacific boxes, 10 elsewhere;
  - population: 20 inside a box around one reference city, 5 elsewhere.

  The sum picks the tier: red from 70, yellow from 40, green below. The tier
  picks a confidence band, and a random draw places the confidence in it.
  Five independent tests then append advisory strings, in a fixed order.
  Score and confidence are rounded only when the result is assembled.

  `predictAlertLevel` reassigns local variables and pushes onto a list, so it
  is the method `PredictAlertLevel`, with the advisory block split out as
  `GenerateAdvice`. `PredictAlertLevel` is proved against the specification
  functions `RiskSum`, `TierOf`, `ConfidenceDraw` and `Recommendations`;
  `GenerateAdvice` is proved against `Advice`. The lemmas state the
  scorer's properties about those functions.

  Also in this module: the form's field update (`handleInputChange`) and the
  level-to-colour mapping (`getAlertColor`).
- **The dashboard** (`EarthquakeDashboard.tsx`), module `Dashboard`. It
  covers:
  - the badge-variant and card-class mappings of an alert string;
  - the critical and warning counts over the recent-events list;
  - the mean magnitude.
- **The map** (`EarthquakeMap.tsx`), module `QuakeMap`. It covers:
  - the equirectangular projection of latitude and longitude onto
    percentage offsets;
  - the marker size, glow, fill and badge chosen from an alert string.

Supporting modules:
- `Rounding` models `Math.round` as `floor(x + 0.5)`.
- `Substrings` gives substring containment.
- `Wrappers` gives `Option`.

All arithmetic is over `real`. `Math.random()` becomes a parameter
`r` with `0 <= r < 1`. `parseFloat` becomes an `Option<real>` argument,
with `None` standing for `NaN`.

Two facts about the scorer's code are easy to miss:

- **The tier comes from the unrounded sum.** The code compares the
  unrounded sum with 70 and 40 and rounds the score only when the result is
  assembled (`EarthquakePrediction.tsx:63-75,88`). A sum in [69.5, 70) is
  shown as 70 next to a yellow tier. `DisplayedSeventyCanBeYellow` and
  `SeventyYellowExample` state this.
- **(39, 35) lies in neither Pacific box.** Its location factor is 10, so
  magnitude 7.1 at 8 km scores 40 + 16 + 10 + 5 = 71, which is red
  (`AnatolianInputIsRed`).

The fixture labels are hand-written and do not all match the scorer.
Combine the dashboard's depths with the map's coordinates:
- San Andreas scores 88.8, which is red, but is labelled yellow.
- Mid-Atlantic Ridge scores 44.4, which is yellow, but is labelled green.

`FixtureLabelsDifferFromScorer` records this. The labels do match the
magnitude ranges printed in the map legend (`FixtureMatchesLegend`).

## Model

| member | source | states |
|---|---|---|
| `Rounding.Round` | src/components/EarthquakePrediction.tsx:87-88 | `Math.round`: the result is the integer within half a unit of `x` (ties go up) |
| `Rounding.RoundMonotone` | src/components/EarthquakePrediction.tsx:88 | rounding never reverses the order of two values |
| `Prediction.MagFactor` | src/components/EarthquakePrediction.tsx:49 | the factor is at most 40 and at most 6·magnitude, and equals one of the two |
| `Prediction.DepthFactor` | src/components/EarthquakePrediction.tsx:52 | the factor is at least 0 and at least 20 − depth/2, and equals one of the two |
| `Prediction.LocationFactor` | src/components/EarthquakePrediction.tsx:55-57 | 10 or 20, and 20 exactly inside one of the two inclusive Pacific boxes |
| `Prediction.PopulationFactor` | src/components/EarthquakePrediction.tsx:60-61 | 5 or 20, and 20 exactly inside the strict urban box |
| `Prediction.FactorRanges` | src/components/EarthquakePrediction.tsx:49-61 | for non-negative magnitude and depth: magnitude factor in [0,40], depth factor in [0,20], location in {10,20}, population in {5,20} |
| `Prediction.RiskSum` | src/components/EarthquakePrediction.tsx:63 | the unrounded score is at most 100 for non-negative depth and at least 15 for non-negative magnitude |
| `Prediction.TierOf` | src/components/EarthquakePrediction.tsx:66-75 | red exactly when the score is at least 70, green exactly when it is below 40, yellow otherwise |
| `Prediction.ConfidenceDraw` | src/components/EarthquakePrediction.tsx:66-75 | for a draw in [0,1) the confidence lies in [85,95) for red, [75,90) for yellow, [60,80) for green |
| `Prediction.ConfidenceRoundedInBand` | src/components/EarthquakePrediction.tsx:87 | after rounding, the confidence lies in [85,95], [75,90] or [60,80] by tier |
| `Prediction.GenerateAdvice` | src/components/EarthquakePrediction.tsx:78-83 | the five tests append exactly the applicable advisories, in catalogue order |
| `Prediction.PredictAlertLevel` | src/components/EarthquakePrediction.tsx:41-90 | the tier is the tier of the unrounded sum; the score is the rounded sum; the confidence is the rounded draw and lies in the tier's band; the score is in [15,100] for non-negative magnitude and depth; the recommendations are those the five predicates select |
| `Prediction.TextInjective` | src/components/EarthquakePrediction.tsx:79-83 | the five advisory strings are pairwise different |
| `Prediction.SelectMembership` | src/components/EarthquakePrediction.tsx:78-83 | after the first k tests, an advisory is on the list exactly when it is among the first k and its predicate holds |
| `Prediction.SelectOrdered` | src/components/EarthquakePrediction.tsx:78-83 | after the first k tests, every listed advisory ranks below k and ranks strictly increase along the list |
| `Prediction.AdviceMembership` | src/components/EarthquakePrediction.tsx:78-83 | each advisory, and each advisory string, is in the recommendations exactly when its predicate holds |
| `Prediction.AdvicePresenceIsLocal` | src/components/EarthquakePrediction.tsx:78-83 | two runs whose predicate for one advisory agree also agree on that advisory's presence, whatever the other predicates do |
| `Prediction.RecommendationsOrdered` | src/components/EarthquakePrediction.tsx:78-83 | the recommendations are an order-preserving selection from the five strings: at most five, none repeated, ranks increasing |
| `Prediction.UrbanAreaInsidePacificRing` | src/components/EarthquakePrediction.tsx:55-61 | every point of the urban box lies in the first Pacific box |
| `Prediction.DenselyPopulatedFollowsSeismicRegion` | src/components/EarthquakePrediction.tsx:81-82 | whenever "Densely populated…" is recommended, "High seismic activity region" comes before it |
| `Prediction.MagFactorSaturates` | src/components/EarthquakePrediction.tsx:49 | the magnitude factor is 40 exactly from magnitude 40/6 on |
| `Prediction.DepthFactorVanishes` | src/components/EarthquakePrediction.tsx:52 | the depth factor is 0 exactly from depth 40 on |
| `Prediction.RiskSumMonotoneInMagnitude` | src/components/EarthquakePrediction.tsx:49-63 | raising the magnitude alone never lowers the score |
| `Prediction.RiskSumAntitoneInDepth` | src/components/EarthquakePrediction.tsx:52-63 | raising the depth alone never raises the score |
| `Prediction.TierMonotone` | src/components/EarthquakePrediction.tsx:66-75 | a higher score never gives a lower tier |
| `Prediction.AlertLevelMonotoneInMagnitude` | src/components/EarthquakePrediction.tsx:49-75 | raising the magnitude alone never lowers the tier |
| `Prediction.AlertLevelAntitoneInDepth` | src/components/EarthquakePrediction.tsx:52-75 | raising the depth alone never raises the tier |
| `Prediction.DisplayedScoreMonotoneInMagnitude` | src/components/EarthquakePrediction.tsx:49-88 | raising the magnitude alone never lowers the displayed (rounded) risk score |
| `Prediction.DisplayedScoreAntitoneInDepth` | src/components/EarthquakePrediction.tsx:52-88 | raising the depth alone never raises the displayed (rounded) risk score |
| `Prediction.DisplayedSeventyCanBeYellow` | src/components/EarthquakePrediction.tsx:63-88 | a sum in [69.5,70) is displayed as 70 yet is yellow |
| `Prediction.SeventyYellowExample` | src/components/EarthquakePrediction.tsx:49-88 | magnitude 7 at 10.5 km at (0,0) sums to 69.75: displayed 70, yellow |
| `Prediction.AdviceOf` | src/components/EarthquakePrediction.tsx:78-83 | the advice is the concatenation of the five tests' contributions, in order |
| `Prediction.DefaultInputIsRed` | src/components/EarthquakePrediction.tsx:25-30 | the form's initial input scores 30+15+20+20 = 85, red, with all advisories except aftershocks |
| `Prediction.AnatolianInputIsRed` | src/components/EarthquakePrediction.tsx:49-83 | (7.1, 8, 39, 35) scores 71, red, with the aftershock, surface-impact and evacuation advisories |
| `Prediction.MidAtlanticInputIsYellow` | src/components/EarthquakePrediction.tsx:49-88 | (4.9, 78, 0, −25) scores 44.4, shown as 44, yellow |
| `Prediction.OrZero` | src/components/EarthquakePrediction.tsx:98 | the `parseFloat(v)`-or-zero coercion: NaN and 0 become 0, any other number is kept, negatives included |
| `Prediction.HandleInputChange` | src/components/EarthquakePrediction.tsx:95-100 | the edited field holds the coerced value; the other three fields are unchanged |
| `Prediction.HandleInputChangeRestores` | src/components/EarthquakePrediction.tsx:95-100 | re-entering a field's current value leaves the input unchanged |
| `Prediction.HandleInputChangeLastWins` | src/components/EarthquakePrediction.tsx:95-100 | of two edits to one field, only the later one matters |
| `Prediction.HandleInputChangeCommutes` | src/components/EarthquakePrediction.tsx:95-100 | edits to two different fields can be applied in either order |
| `Prediction.AlertColor` | src/components/EarthquakePrediction.tsx:102-109 | the muted classes exactly for strings other than the three level names |
| `Prediction.AlertColorOfLevels` | src/components/EarthquakePrediction.tsx:102-109 | the scorer's three levels get three different, non-muted colours; any other string gets the muted one |
| `Dashboard.AlertVariant` | src/components/EarthquakeDashboard.tsx:46-53 | total; one of four variants, and 'secondary' exactly for unknown strings |
| `Dashboard.AlertVariantInjective` | src/components/EarthquakeDashboard.tsx:46-53 | the three level names get three different variants |
| `Dashboard.AlertClassName` | src/components/EarthquakeDashboard.tsx:55-62 | total; 'bg-secondary' exactly for unknown strings |
| `Dashboard.OnlyRedGlows` | src/components/EarthquakeDashboard.tsx:55-62 | the class string contains 'alert-glow' exactly for 'red' |
| `Dashboard.WithAlert` | src/components/EarthquakeDashboard.tsx:65-66 | the filter keeps exactly the events with the given alert, and no more events than the list has |
| `Dashboard.WithAlertAppend` | src/components/EarthquakeDashboard.tsx:65-66 | the filter keeps the list's order: one event is kept exactly when it carries the level, and filtering a concatenation concatenates the filtered parts |
| `Dashboard.WithAlertMultiplicity` | src/components/EarthquakeDashboard.tsx:65-66 | the filter keeps each event carrying the level exactly as often as it occurs in the list, and drops every other event |
| `Dashboard.WithAlertNoneOrAll` | src/components/EarthquakeDashboard.tsx:65-66 | the filtered list is empty exactly when no event carries the level, and as long as the list exactly when every event does |
| `Dashboard.CriticalAlerts` | src/components/EarthquakeDashboard.tsx:65 | the red count is at most the event count; it is 0 exactly when no event is red and the event count exactly when every event is |
| `Dashboard.WarningAlerts` | src/components/EarthquakeDashboard.tsx:66 | the yellow count is at most the event count; it is 0 exactly when no event is yellow and the event count exactly when every event is |
| `Dashboard.ActiveAlertsPartition` | src/components/EarthquakeDashboard.tsx:65-79 | critical + warning + events labelled neither = events count, so the active-alert figure never exceeds the events figure |
| `Dashboard.CriticalAndWarningDisjoint` | src/components/EarthquakeDashboard.tsx:65-66 | no event is both critical and warning |
| `Dashboard.SumMagnitudeAppend` | src/components/EarthquakeDashboard.tsx:67 | appending an event adds its magnitude to the sum, so the sum is what the left-to-right `reduce` from 0 returns |
| `Dashboard.SumMagnitudeAtLeast` | src/components/EarthquakeDashboard.tsx:67 | a lower bound of every magnitude, times the count, bounds the `reduce` sum from below |
| `Dashboard.SumMagnitudeAtMost` | src/components/EarthquakeDashboard.tsx:67 | an upper bound of every magnitude, times the count, bounds the sum from above |
| `Dashboard.MeanBetweenBounds` | src/components/EarthquakeDashboard.tsx:67 | sum / count lies between any lower and upper bound of the magnitudes |
| `Dashboard.AvgMagnitude` | src/components/EarthquakeDashboard.tsx:67 | the mean is defined exactly for a non-empty list and lies between the smallest and largest magnitude |
| `Dashboard.RecentEarthquakeFigures` | src/components/EarthquakeDashboard.tsx:7-67 | on the listed events: 1 critical, 2 warning, 3 active, 4 events, mean magnitude 6.0 |
| `QuakeMap.LeftPercent` | src/components/EarthquakeMap.tsx:66 | the offset is in [0,100] exactly for longitudes in [−180,180] |
| `QuakeMap.TopPercent` | src/components/EarthquakeMap.tsx:67 | the offset is in [0,100] exactly for latitudes in [−90,90] |
| `QuakeMap.LongitudeAt` | src/components/EarthquakeMap.tsx:66 | the inverse of the `left` formula: offsets in [0,100] give longitudes in [−180,180] and back |
| `QuakeMap.LatitudeAt` | src/components/EarthquakeMap.tsx:67 | the inverse of the `top` formula: offsets in [0,100] give latitudes in [−90,90] and back |
| `QuakeMap.Project` | src/components/EarthquakeMap.tsx:66-67 | both offsets are in [0,100] exactly for valid coordinates |
| `QuakeMap.ProjectionEndpoints` | src/components/EarthquakeMap.tsx:66-67 | −180, 0, 180 map to 0, 50, 100 on the left axis; 90, 0, −90 map to 0, 50, 100 on the top axis |
| `QuakeMap.LeftStrictlyIncreasing` | src/components/EarthquakeMap.tsx:66 | `left` strictly increases with longitude |
| `QuakeMap.TopStrictlyDecreasing` | src/components/EarthquakeMap.tsx:67 | `top` strictly decreases as latitude grows |
| `QuakeMap.ProjectionRoundTrip` | src/components/EarthquakeMap.tsx:66-67 | each offset formula and its inverse undo each other in both directions |
| `QuakeMap.ProjectionInjective` | src/components/EarthquakeMap.tsx:66-67 | two markers share a position exactly when their coordinates are equal |
| `QuakeMap.MarkerSize` | src/components/EarthquakeMap.tsx:70-73 | w-6 exactly for red, w-5 exactly for yellow, w-4 for any other string |
| `QuakeMap.MarkerGlow` | src/components/EarthquakeMap.tsx:62-63 | 'alert-glow' exactly for red, empty otherwise |
| `QuakeMap.MarkerColour` | src/components/EarthquakeMap.tsx:74-81 | destructive exactly for red, warning exactly for yellow, success for any other string |
| `QuakeMap.BadgeVariant` | src/components/EarthquakeMap.tsx:130-134 | 'alert' exactly for red, 'warning' exactly for yellow, 'success' for any other string |
| `QuakeMap.UnknownLevelLooksGreen` | src/components/EarthquakeMap.tsx:62-81 | an unknown level is drawn exactly like green: same size, fill, glow and badge |
| `QuakeMap.LevelsStyledApart` | src/components/EarthquakeMap.tsx:70-81 | the scorer's three levels get different sizes, fills and badges |
| `QuakeMap.BadgeAgreesWithDashboard` | src/components/EarthquakeMap.tsx:130-134 | the map's badge equals the dashboard's on the three level names; on any other string the map says 'success' and the dashboard 'secondary' |
| `QuakeMap.FixtureMarkersOnMap` | src/components/EarthquakeMap.tsx:6-11 | every listed location has valid coordinates, so both offsets of every marker lie in [0,100] |
| `QuakeMap.FixtureMatchesLegend` | src/components/EarthquakeMap.tsx:96-104 | every listed location's magnitude lies in the legend's range for its label |
| `QuakeMap.FixtureLabelsDifferFromScorer` | src/components/EarthquakeMap.tsx:8-10 | with the dashboard's depths, San Andreas scores 88.8 (red) but is labelled yellow, and Mid-Atlantic scores 44.4 (yellow) but is labelled green |

## Left out

- React state is not modelled: `useState`, `setPrediction`, `setIsLoading` and the 1500 ms `setTimeout` before scoring. A call of `PredictAlertLevel` stands for one completed prediction.
- `Math.random()` is not modelled. It is the parameter `r`, and every property holds for any `r` in [0,1).
- `parseFloat` is not modelled. `HandleInputChange` takes its outcome as an `Option<real>`, with `None` for `NaN`.
- IEEE-754 doubles are not modelled: all arithmetic is exact over `real`. For example, 4.9·6 is exactly 29.4 here.
- `toFixed(1)` formatting of the mean magnitude is not modelled. `AvgMagnitude` returns the unformatted mean, with `None` for the `NaN` an empty list would give.
- The string `recommendations` list is built in two steps. `GenerateAdvice` appends `Advisory` values, and `Texts` maps them to the exact strings `predictAlertLevel` pushes. This is the same list, but it is not built by string pushes in place.
- JSX, icons, the UI widget library and every Tailwind class string other than the alert mappings are presentation only and are not modelled.
- The analytics, settings, header and navigation components are not part of this model. They render static literals.
- The page's tab dispatch (`src/pages/Index.tsx`) is routing and is not part of this model.
