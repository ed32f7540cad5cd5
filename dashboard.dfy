/** The live-feed dashboard: badge and card styles chosen from an event's
    alert string, and the summary figures computed over the list of recent
    events (critical and warning counts, event count, mean magnitude). */
module Dashboard {
  import opened Wrappers
  import opened Substrings

  /** One recent event as the feed lists it. */
  datatype Quake = Quake(
    id: int,
    location: string,
    magnitude: real,
    depth: real,
    time: string,
    alert: string,
    impact: string)

  /** The fixed list of recent events the dashboard shows. */
  const RecentEarthquakes: seq<Quake> := [
    Quake(1, "Pacific Ring of Fire, Japan", 6.2, 45.0, "2025-01-21 14:32:15", "yellow", "moderate"),
    Quake(2, "San Andreas Fault, California", 5.8, 12.0, "2025-01-21 12:15:42", "yellow", "low"),
    Quake(3, "Anatolian Fault, Turkey", 7.1, 8.0, "2025-01-21 09:45:18", "red", "high"),
    Quake(4, "Mid-Atlantic Ridge", 4.9, 78.0, "2025-01-21 06:20:33", "green", "minimal")
  ]

  /** The three level names; everything else is an unknown level. */
  predicate IsLevelName(alert: string)
  {
    alert == "red" || alert == "yellow" || alert == "green"
  }

  // ---------------------------------------------------------------------
  // Style mappings
  // ---------------------------------------------------------------------

  /** `getAlertVariant`: the badge variant of an alert string. Total: red,
      yellow and green get their own variants, anything else 'secondary'. */
  function AlertVariant(alert: string): (variant: string)
    ensures variant == "alert" || variant == "warning" || variant == "success" || variant == "secondary"
    ensures variant == "secondary" <==> !IsLevelName(alert)
  {
    match alert
    case "red" => "alert"
    case "yellow" => "warning"
    case "green" => "success"
    case _ => "secondary"
  }

  /** The three level names get three different variants. */
  lemma AlertVariantInjective(a: string, b: string)
    requires IsLevelName(a) && IsLevelName(b) && a != b
    ensures AlertVariant(a) != AlertVariant(b)
  {
  }

  /** `getAlertClassName`: the card classes of an alert string; anything
      other than the three level names gets 'bg-secondary'. */
  function AlertClassName(alert: string): (classes: string)
    ensures classes == "bg-secondary" <==> !IsLevelName(alert)
  {
    match alert
    case "red" => "alert-red alert-glow"
    case "yellow" => "alert-yellow"
    case "green" => "alert-green"
    case _ => "bg-secondary"
  }

  /** Only a red card glows. */
  lemma OnlyRedGlows(alert: string)
    ensures Contains(AlertClassName(alert), "alert-glow") <==> alert == "red"
  {
    var glow := "alert-glow";
    var classes := AlertClassName(alert);
    if alert == "red" {
      assert OccursAt(classes, glow, 10);
    } else if alert == "yellow" {
      MismatchAt(classes, glow, 0, 6);
      MismatchAt(classes, glow, 1, 0);
      MismatchAt(classes, glow, 2, 0);
    } else if alert == "green" {
      MismatchAt(classes, glow, 0, 7);
      MismatchAt(classes, glow, 1, 0);
    } else {
      MismatchAt(classes, glow, 0, 0);
      MismatchAt(classes, glow, 1, 0);
      MismatchAt(classes, glow, 2, 0);
    }
  }

  // ---------------------------------------------------------------------
  // Summary figures
  // ---------------------------------------------------------------------

  /** `events.filter(eq => eq.alert === level)`: the events carrying `level`
      and no other, never more than the list holds. Order and multiplicity
      are stated by `WithAlertAppend` and `WithAlertMultiplicity`. */
  function WithAlert(events: seq<Quake>, level: string): (picked: seq<Quake>)
    ensures |picked| <= |events|
    ensures forall q :: q in picked <==> q in events && q.alert == level
  {
    if events == [] then []
    else (if events[0].alert == level then [events[0]] else []) + WithAlert(events[1..], level)
  }

  /** The filter works event by event and keeps the order of the list: a
      single event is kept exactly when it carries `level`, and filtering a
      concatenation concatenates the filtered parts. */
  lemma {:induction false} WithAlertAppend(front: seq<Quake>, back: seq<Quake>, level: string, q: Quake)
    ensures WithAlert([q], level) == if q.alert == level then [q] else []
    ensures WithAlert(front + back, level) == WithAlert(front, level) + WithAlert(back, level)
  {
    assert [q][1..] == [];
    if front == [] {
      assert front + back == back;
    } else {
      assert (front + back)[1..] == front[1..] + back;
      WithAlertAppend(front[1..], back, level, q);
    }
  }

  /** The filter keeps every event carrying `level` as many times as it
      occurs, and drops every other event. */
  lemma {:induction false} WithAlertMultiplicity(events: seq<Quake>, level: string, q: Quake)
    ensures multiset(WithAlert(events, level))[q] == if q.alert == level then multiset(events)[q] else 0
  {
    if events != [] {
      WithAlertMultiplicity(events[1..], level, q);
      assert events == [events[0]] + events[1..];
      assert multiset(events) == multiset([events[0]]) + multiset(events[1..]);
    }
  }

  /** The filtered list is empty exactly when no event carries `level`, and
      as long as the input exactly when every event does. */
  lemma {:induction false} WithAlertNoneOrAll(events: seq<Quake>, level: string)
    ensures |WithAlert(events, level)| == 0 <==> forall i :: 0 <= i < |events| ==> events[i].alert != level
    ensures |WithAlert(events, level)| == |events| <==> forall i :: 0 <= i < |events| ==> events[i].alert == level
  {
    if events != [] {
      WithAlertNoneOrAll(events[1..], level);
      assert forall i :: 1 <= i < |events| ==> events[i] == events[1..][i - 1];
      if forall i :: 0 <= i < |events| ==> events[i].alert == level {
        assert forall i :: 0 <= i < |events[1..]| ==> events[1..][i] == events[i + 1];
      }
      if forall i :: 0 <= i < |events| ==> events[i].alert != level {
        assert forall i :: 0 <= i < |events[1..]| ==> events[1..][i] == events[i + 1];
      }
    }
  }

  /** `criticalAlerts`: the number of red events. It is 0 exactly when no
      event is red and the event count exactly when every event is. */
  function CriticalAlerts(events: seq<Quake>): (n: nat)
    ensures n <= |events|
    ensures n == 0 <==> forall i :: 0 <= i < |events| ==> events[i].alert != "red"
    ensures n == |events| <==> forall i :: 0 <= i < |events| ==> events[i].alert == "red"
  {
    WithAlertNoneOrAll(events, "red");
    |WithAlert(events, "red")|
  }

  /** `warningAlerts`: the number of yellow events. It is 0 exactly when no
      event is yellow and the event count exactly when every event is. */
  function WarningAlerts(events: seq<Quake>): (n: nat)
    ensures n <= |events|
    ensures n == 0 <==> forall i :: 0 <= i < |events| ==> events[i].alert != "yellow"
    ensures n == |events| <==> forall i :: 0 <= i < |events| ==> events[i].alert == "yellow"
  {
    WithAlertNoneOrAll(events, "yellow");
    |WithAlert(events, "yellow")|
  }

  /** The events labelled neither red nor yellow. */
  function Quiet(events: seq<Quake>): (quiet: seq<Quake>)
    ensures forall q :: q in quiet <==> q in events && q.alert != "red" && q.alert != "yellow"
  {
    if events == [] then []
    else (if events[0].alert != "red" && events[0].alert != "yellow" then [events[0]] else [])
         + Quiet(events[1..])
  }

  /** Every event is critical, warning or quiet, and exactly one of them: the
      active-alert figure (critical + warning) is the event count minus the
      quiet events, so it never exceeds the event count. */
  lemma {:induction false} ActiveAlertsPartition(events: seq<Quake>)
    ensures CriticalAlerts(events) + WarningAlerts(events) + |Quiet(events)| == |events|
    ensures CriticalAlerts(events) + WarningAlerts(events) <= |events|
  {
    if events != [] {
      ActiveAlertsPartition(events[1..]);
    }
  }

  /** No event is counted both as critical and as warning. */
  lemma CriticalAndWarningDisjoint(events: seq<Quake>, q: Quake)
    ensures !(q in WithAlert(events, "red") && q in WithAlert(events, "yellow"))
  {
  }

  /** Sum of the magnitudes (the `reduce` with initial value 0). */
  function SumMagnitude(events: seq<Quake>): real
  {
    if events == [] then 0.0 else events[0].magnitude + SumMagnitude(events[1..])
  }

  /** `reduce` accumulates from the left: appending an event adds its
      magnitude to the running sum, so the sum above is the value `reduce`
      returns. */
  lemma {:induction false} SumMagnitudeAppend(events: seq<Quake>, q: Quake)
    ensures SumMagnitude(events + [q]) == SumMagnitude(events) + q.magnitude
  {
    if events != [] {
      assert (events + [q])[1..] == events[1..] + [q];
      SumMagnitudeAppend(events[1..], q);
    } else {
      assert events + [q] == [q];
    }
  }

  /** Smallest magnitude of a non-empty list. */
  function MinMagnitude(events: seq<Quake>): (m: real)
    requires events != []
    ensures forall i :: 0 <= i < |events| ==> m <= events[i].magnitude
    ensures exists i :: 0 <= i < |events| && events[i].magnitude == m
  {
    if |events| == 1 then events[0].magnitude
    else
      var rest := MinMagnitude(events[1..]);
      if events[0].magnitude <= rest then events[0].magnitude else rest
  }

  /** Largest magnitude of a non-empty list. */
  function MaxMagnitude(events: seq<Quake>): (m: real)
    requires events != []
    ensures forall i :: 0 <= i < |events| ==> events[i].magnitude <= m
    ensures exists i :: 0 <= i < |events| && events[i].magnitude == m
  {
    if |events| == 1 then events[0].magnitude
    else
      var rest := MaxMagnitude(events[1..]);
      if events[0].magnitude >= rest then events[0].magnitude else rest
  }

  /** A lower bound of every magnitude, times the count, bounds the sum from
      below. */
  lemma {:induction false} SumMagnitudeAtLeast(events: seq<Quake>, lo: real)
    requires forall i :: 0 <= i < |events| ==> lo <= events[i].magnitude
    ensures |events| as real * lo <= SumMagnitude(events)
  {
    if events != [] {
      SumMagnitudeAtLeast(events[1..], lo);
      assert |events| as real * lo == lo + |events[1..]| as real * lo;
    }
  }

  /** An upper bound of every magnitude, times the count, bounds the sum from
      above. */
  lemma {:induction false} SumMagnitudeAtMost(events: seq<Quake>, hi: real)
    requires forall i :: 0 <= i < |events| ==> events[i].magnitude <= hi
    ensures SumMagnitude(events) <= |events| as real * hi
  {
    if events != [] {
      SumMagnitudeAtMost(events[1..], hi);
      assert |events| as real * hi == hi + |events[1..]| as real * hi;
    }
  }

  /** `avgMagnitude` before formatting: the sum over the count, which is
      `NaN` (here `None`) for an empty list; otherwise it lies between the
      smallest and the largest magnitude. */
  function AvgMagnitude(events: seq<Quake>): (avg: Option<real>)
    ensures avg.Some? <==> events != []
    ensures avg.Some? ==> MinMagnitude(events) <= avg.value <= MaxMagnitude(events)
  {
    if events == [] then None
    else
      MeanBetweenBounds(events, MinMagnitude(events), MaxMagnitude(events));
      Some(SumMagnitude(events) / |events| as real)
  }

  /** The mean of a non-empty list lies between any lower and any upper bound
      of its magnitudes. */
  lemma MeanBetweenBounds(events: seq<Quake>, lo: real, hi: real)
    requires events != []
    requires forall i :: 0 <= i < |events| ==> lo <= events[i].magnitude <= hi
    ensures lo <= SumMagnitude(events) / |events| as real <= hi
  {
    var n := |events| as real;
    var sum := SumMagnitude(events);
    SumMagnitudeAtLeast(events, lo);
    SumMagnitudeAtMost(events, hi);
    DivideBounds(lo, sum, hi, n);
  }

  /** Dividing `n * lo <= s <= n * hi` by a positive `n`. */
  lemma DivideBounds(lo: real, s: real, hi: real, n: real)
    requires n > 0.0 && n * lo <= s <= n * hi
    ensures lo <= s / n <= hi
  {
    assert s / n * n == s;
  }

  // ---------------------------------------------------------------------
  // The figures on the fixed list
  // ---------------------------------------------------------------------

  /** On the recent events: 1 critical, 2 warning, 3 active, 4 events,
      mean magnitude 6.0. */
  lemma RecentEarthquakeFigures()
    ensures CriticalAlerts(RecentEarthquakes) == 1
    ensures WarningAlerts(RecentEarthquakes) == 2
    ensures CriticalAlerts(RecentEarthquakes) + WarningAlerts(RecentEarthquakes) == 3
    ensures |RecentEarthquakes| == 4
    ensures AvgMagnitude(RecentEarthquakes) == Some(6.0)
  {
    var e := RecentEarthquakes;
    assert e[1..][1..][1..][1..] == [];
    assert WithAlert(e[1..][1..][1..], "red") == [];
    assert WithAlert(e[1..][1..][1..], "yellow") == [];
    assert WithAlert(e[1..][1..], "red") == [e[2]];
    assert WithAlert(e[1..][1..], "yellow") == [];
    assert SumMagnitude(e[1..][1..][1..]) == 4.9;
    assert SumMagnitude(e) == 24.0;
  }
}
