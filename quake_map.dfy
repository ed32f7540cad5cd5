/** The world map: each event is placed by an equirectangular projection of
    its latitude and longitude onto percentage offsets of the map box, and
    drawn with a size, colour, glow and badge chosen from its alert string. */
module QuakeMap {
  import opened Prediction
  import Dashboard

  /** One marker as the map lists it. */
  datatype Location = Location(
    id: int,
    name: string,
    lat: real,
    lng: real,
    magnitude: real,
    alert: string)

  /** The fixed list of locations the map shows. */
  const EarthquakeLocations: seq<Location> := [
    Location(1, "Pacific Ring of Fire", 35.0, 139.0, 6.2, "yellow"),
    Location(2, "San Andreas Fault", 37.0, -122.0, 5.8, "yellow"),
    Location(3, "Anatolian Fault", 39.0, 35.0, 7.1, "red"),
    Location(4, "Mid-Atlantic Ridge", 0.0, -25.0, 4.9, "green")
  ]

  /** A coordinate pair on the globe. */
  predicate ValidCoordinates(lat: real, lng: real)
  {
    -90.0 <= lat <= 90.0 && -180.0 <= lng <= 180.0
  }

  // ---------------------------------------------------------------------
  // Projection
  // ---------------------------------------------------------------------

  /** The `left` offset in percent: longitude -180 is the left edge, 180 the
      right edge. */
  function LeftPercent(lng: real): (left: real)
    ensures -180.0 <= lng <= 180.0 <==> 0.0 <= left <= 100.0
  {
    (lng + 180.0) * (100.0 / 360.0)
  }

  /** The `top` offset in percent: latitude 90 is the top edge, -90 the
      bottom edge. */
  function TopPercent(lat: real): (top: real)
    ensures -90.0 <= lat <= 90.0 <==> 0.0 <= top <= 100.0
  {
    (90.0 - lat) * (100.0 / 180.0)
  }

  /** The longitude a `left` offset stands for. */
  function LongitudeAt(left: real): (lng: real)
    ensures 0.0 <= left <= 100.0 <==> -180.0 <= lng <= 180.0
  {
    left * 3.6 - 180.0
  }

  /** The latitude a `top` offset stands for. */
  function LatitudeAt(top: real): (lat: real)
    ensures 0.0 <= top <= 100.0 <==> -90.0 <= lat <= 90.0
  {
    90.0 - top * 1.8
  }

  /** Both offsets of a marker. */
  function Project(lat: real, lng: real): (offsets: (real, real))
    ensures ValidCoordinates(lat, lng) <==>
      0.0 <= offsets.0 <= 100.0 && 0.0 <= offsets.1 <= 100.0
  {
    (LeftPercent(lng), TopPercent(lat))
  }

  /** The corners and the centre line land where a map reader expects them. */
  lemma ProjectionEndpoints()
    ensures LeftPercent(-180.0) == 0.0 && LeftPercent(0.0) == 50.0 && LeftPercent(180.0) == 100.0
    ensures TopPercent(90.0) == 0.0 && TopPercent(0.0) == 50.0 && TopPercent(-90.0) == 100.0
  {
  }

  /** East is right: `left` grows strictly with longitude. */
  lemma LeftStrictlyIncreasing(lng: real, east: real)
    requires lng < east
    ensures LeftPercent(lng) < LeftPercent(east)
  {
  }

  /** North is up: `top` shrinks strictly as latitude grows. */
  lemma TopStrictlyDecreasing(lat: real, north: real)
    requires lat < north
    ensures TopPercent(north) < TopPercent(lat)
  {
  }

  /** The offsets determine the longitude and latitude back. */
  lemma ProjectionRoundTrip(lat: real, lng: real, left: real, top: real)
    ensures LongitudeAt(LeftPercent(lng)) == lng
    ensures LatitudeAt(TopPercent(lat)) == lat
    ensures LeftPercent(LongitudeAt(left)) == left
    ensures TopPercent(LatitudeAt(top)) == top
  {
  }

  /** Two different places never share a marker position. */
  lemma ProjectionInjective(lat: real, lng: real, lat': real, lng': real)
    ensures Project(lat, lng) == Project(lat', lng') <==> lat == lat' && lng == lng'
  {
    if Project(lat, lng) == Project(lat', lng') {
      ProjectionRoundTrip(lat, lng, 0.0, 0.0);
      ProjectionRoundTrip(lat', lng', 0.0, 0.0);
    }
  }

  // ---------------------------------------------------------------------
  // Marker styles
  // ---------------------------------------------------------------------

  /** The marker's size classes: largest for red, middle for yellow, the
      small one for every other string. */
  function MarkerSize(alert: string): (size: string)
    ensures size in {"w-6 h-6", "w-5 h-5", "w-4 h-4"}
    ensures size == "w-6 h-6" <==> alert == "red"
    ensures size == "w-5 h-5" <==> alert == "yellow"
  {
    if alert == "red" then "w-6 h-6" else if alert == "yellow" then "w-5 h-5" else "w-4 h-4"
  }

  /** The outer element's extra class: only red glows. */
  function MarkerGlow(alert: string): (glow: string)
    ensures glow == "alert-glow" <==> alert == "red"
    ensures glow == "" <==> alert != "red"
  {
    if alert == "red" then "alert-glow" else ""
  }

  /** The marker's fill, used by both the ping ring and the dot. */
  function MarkerColour(alert: string): (colour: string)
    ensures colour in {"bg-destructive", "bg-warning", "bg-success"}
    ensures colour == "bg-destructive" <==> alert == "red"
    ensures colour == "bg-warning" <==> alert == "yellow"
  {
    if alert == "red" then "bg-destructive" else if alert == "yellow" then "bg-warning" else "bg-success"
  }

  /** The badge variant on the location card. */
  function BadgeVariant(alert: string): (variant: string)
    ensures variant in {"alert", "warning", "success"}
    ensures variant == "alert" <==> alert == "red"
    ensures variant == "warning" <==> alert == "yellow"
  {
    if alert == "red" then "alert" else if alert == "yellow" then "warning" else "success"
  }

  /** On the map an unrecognised level is drawn exactly like green: same
      size, fill, glow and badge. */
  lemma UnknownLevelLooksGreen(alert: string)
    requires !Dashboard.IsLevelName(alert)
    ensures MarkerSize(alert) == MarkerSize("green")
    ensures MarkerColour(alert) == MarkerColour("green")
    ensures MarkerGlow(alert) == MarkerGlow("green")
    ensures BadgeVariant(alert) == BadgeVariant("green")
  {
  }

  /** The scorer's three levels get three different sizes, fills and
      badges on the map. */
  lemma LevelsStyledApart(level: AlertLevel, other: AlertLevel)
    requires level != other
    ensures MarkerSize(level.Name()) != MarkerSize(other.Name())
    ensures MarkerColour(level.Name()) != MarkerColour(other.Name())
    ensures BadgeVariant(level.Name()) != BadgeVariant(other.Name())
  {
  }

  /** The map's badge and the dashboard's badge agree on the three level
      names and part ways on any other string: the dashboard shows
      'secondary' where the map shows 'success'. */
  lemma BadgeAgreesWithDashboard(alert: string)
    ensures Dashboard.IsLevelName(alert) ==> BadgeVariant(alert) == Dashboard.AlertVariant(alert)
    ensures !Dashboard.IsLevelName(alert) ==>
      BadgeVariant(alert) == "success" && Dashboard.AlertVariant(alert) == "secondary"
  {
  }

  // ---------------------------------------------------------------------
  // The fixed list
  // ---------------------------------------------------------------------

  /** Every listed location has valid coordinates, so every marker lies
      inside the map box on both axes. */
  lemma FixtureMarkersOnMap()
    ensures forall i :: 0 <= i < |EarthquakeLocations| ==>
      ValidCoordinates(EarthquakeLocations[i].lat, EarthquakeLocations[i].lng)
    ensures forall i :: 0 <= i < |EarthquakeLocations| ==>
      var p := Project(EarthquakeLocations[i].lat, EarthquakeLocations[i].lng);
      0.0 <= p.0 <= 100.0 && 0.0 <= p.1 <= 100.0
  {
  }

  /** The magnitude ranges the legend prints next to each colour. */
  predicate InLegendRange(alert: string, magnitude: real)
  {
    match alert
    case "red" => 7.0 <= magnitude
    case "yellow" => 5.5 <= magnitude <= 6.9
    case "green" => 4.5 <= magnitude <= 5.4
    case _ => false
  }

  /** Every listed location's label matches the legend's magnitude range. */
  lemma FixtureMatchesLegend()
    ensures forall i :: 0 <= i < |EarthquakeLocations| ==>
      InLegendRange(EarthquakeLocations[i].alert, EarthquakeLocations[i].magnitude)
  {
  }

  /** The scorer's input for a listed location, with the depth the
      dashboard lists for the same event. */
  function ScorerInput(location: Location, depth: real): PredictionInput
  {
    PredictionInput(location.magnitude, depth, location.lat, location.lng)
  }

  /** The hand-written labels are not the scorer's verdict: San Andreas
      (5.8 at 12 km) scores 88.8, red, but is labelled yellow; Mid-Atlantic
      (4.9 at 78 km) scores 44.4, yellow, but is labelled green. */
  lemma FixtureLabelsDifferFromScorer()
    ensures var q := Dashboard.RecentEarthquakes[1];
      var input := ScorerInput(EarthquakeLocations[1], q.depth);
      RiskSum(input) == 88.8 && TierOf(RiskSum(input)).Name() == "red" &&
      q.alert == "yellow" && EarthquakeLocations[1].alert == "yellow"
    ensures var q := Dashboard.RecentEarthquakes[3];
      var input := ScorerInput(EarthquakeLocations[3], q.depth);
      RiskSum(input) == 44.4 && TierOf(RiskSum(input)).Name() == "yellow" &&
      q.alert == "green" && EarthquakeLocations[3].alert == "green"
  {
    assert InPacificRing(37.0, -122.0) && InUrbanArea(37.0, -122.0);
    assert !InPacificRing(0.0, -25.0) && !InUrbanArea(0.0, -25.0);
  }
}
