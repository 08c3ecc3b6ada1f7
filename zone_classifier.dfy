/** The status classifier of myapp/zone_classifier.py: a priority-ordered cascade
    over zone membership and speed thresholds (speed in knots). */
module ZoneClassifier {

  import opened Wrappers

  /** A closed, axis-aligned zone: latitude and longitude bounds in degrees. */
  datatype Rect = Rect(latMin: real, latMax: real, lonMin: real, lonMax: real)

  /** Zone 1, the anchorage / arrival area. */
  const ZONE_1: Rect := Rect(-5.9500000, -5.7360109, 106.8017998, 107.0098827)

  /** Zone 2, the fairway / approach area; it shares the latitude -5.95 edge with Zone 1. */
  const ZONE_2: Rect := Rect(-6.1620722, -5.9500000, 106.8017998, 107.0098827)

  /** Every label the classifier can return. */
  const LABELS: set<string> :=
    {"Berthing", "Maneuvering", "Anchoring", "Approaching", "Postponed", "Arrival", "Outside_Port"}

  /** Shapely's `covers` on a rectangle: the boundary belongs to the zone. */
  predicate Covers(z: Rect, lat: real, lon: real)
  {
    z.latMin <= lat <= z.latMax && z.lonMin <= lon <= z.lonMax
  }

  /** Some berthing zone covers the point. */
  predicate InAnyBerthingZone(inBerth: seq<bool>)
  {
    exists k :: 0 <= k < |inBerth| && inBerth[k]
  }

  /** The loop over the berthing zones from zone `i` on. `inBerth[k]` is whether
      berthing zone k covers the point; a covering zone returns a label unless the
      ship is too fast, in which case the search goes on. */
  function BerthingSearch(inBerth: seq<bool>, i: nat, speed: real): (found: Option<string>)
    requires i <= |inBerth|
    ensures found.Some? ==> found.value in {"Berthing", "Maneuvering"}
    ensures found.Some? ==> exists k :: i <= k < |inBerth| && inBerth[k]
    decreases |inBerth| - i
  {
    if i == |inBerth| then None
    else if inBerth[i] then
      if speed <= 0.2 then Some("Berthing")
      else if speed <= 6.0 then Some("Maneuvering")
      else BerthingSearch(inBerth, i + 1, speed)
    else BerthingSearch(inBerth, i + 1, speed)
  }

  /** classify_ship_status: berthing zones first, then Zone 2, then Zone 1, else outside. */
  function ClassifyShipStatus(lat: real, lon: real, speed: real, inBerth: seq<bool>): (status: string)
    ensures status in LABELS
  {
    match BerthingSearch(inBerth, 0, speed)
    case Some(berthLabel) => berthLabel
    case None =>
      var inZone2 := Covers(ZONE_2, lat, lon);
      var inZone1 := Covers(ZONE_1, lat, lon);
      if inZone2 && speed <= 0.9 then "Anchoring"
      else if inZone2 && speed <= 12.0 then "Approaching"
      else if inZone1 && speed <= 0.9 then "Postponed"
      else if inZone1 && speed <= 15.0 then "Arrival"
      else "Outside_Port"
  }

  /** The search answers the same for every covering zone: only whether some zone
      from `i` on covers the point matters. */
  lemma {:induction false} BerthingSearchAnyZone(inBerth: seq<bool>, i: nat, speed: real)
    requires i <= |inBerth|
    decreases |inBerth| - i
    ensures var covered := exists k :: i <= k < |inBerth| && inBerth[k];
      BerthingSearch(inBerth, i, speed) ==
        if covered && speed <= 0.2 then Some("Berthing")
        else if covered && speed <= 6.0 then Some("Maneuvering")
        else None
  {
    if i < |inBerth| {
      BerthingSearchAnyZone(inBerth, i + 1, speed);
      if !inBerth[i] {
        assert (exists k :: i <= k < |inBerth| && inBerth[k]) <==>
               (exists k :: i + 1 <= k < |inBerth| && inBerth[k]);
      }
    }
  }

  /** The complete decision table, case by case, each in both directions. */
  lemma ClassifyCases(lat: real, lon: real, speed: real, inBerth: seq<bool>)
    ensures var status := ClassifyShipStatus(lat, lon, speed, inBerth);
      var berth := InAnyBerthingZone(inBerth);
      var zone2 := Covers(ZONE_2, lat, lon);
      var zone1 := Covers(ZONE_1, lat, lon);
      var berthed := berth && speed <= 6.0;
      var fairway := !berthed && zone2 && speed <= 12.0;
      var anchorage := !berthed && !fairway && zone1 && speed <= 15.0;
      && (status == "Berthing" <==> berth && speed <= 0.2)
      && (status == "Maneuvering" <==> berth && 0.2 < speed <= 6.0)
      && (status == "Anchoring" <==> !berthed && zone2 && speed <= 0.9)
      && (status == "Approaching" <==> !berthed && zone2 && 0.9 < speed <= 12.0)
      && (status == "Postponed" <==> !berthed && !fairway && zone1 && speed <= 0.9)
      && (status == "Arrival" <==> anchorage && 0.9 < speed)
      && (status == "Outside_Port" <==> !berthed && !fairway && !anchorage)
  {
    BerthingSearchAnyZone(inBerth, 0, speed);
  }

  /** Which berthing zone covers the point never matters, only whether one does. */
  lemma ClassifyDependsOnlyOnSomeBerthingZone(lat: real, lon: real, speed: real, b1: seq<bool>, b2: seq<bool>)
    requires InAnyBerthingZone(b1) == InAnyBerthingZone(b2)
    ensures ClassifyShipStatus(lat, lon, speed, b1) == ClassifyShipStatus(lat, lon, speed, b2)
  {
    BerthingSearchAnyZone(b1, 0, speed);
    BerthingSearchAnyZone(b2, 0, speed);
  }

  /** A ship faster than 6 knots in a berthing zone gets no berthing label: it is
      classified as if no berthing zone covered it. */
  lemma FastShipInBerthingZoneFallsThrough(lat: real, lon: real, speed: real, inBerth: seq<bool>)
    requires speed > 6.0
    ensures ClassifyShipStatus(lat, lon, speed, inBerth) == ClassifyShipStatus(lat, lon, speed, [])
    ensures ClassifyShipStatus(lat, lon, speed, inBerth) !in {"Berthing", "Maneuvering"}
  {
    BerthingSearchAnyZone(inBerth, 0, speed);
  }

  /** On the latitude -5.95 edge shared by Zones 1 and 2, Zone 2 wins up to 12 knots;
      between 12 and 15 knots the ship falls through to Zone 1's "Arrival". */
  lemma SharedEdgeGoesToZone2(lon: real, speed: real, inBerth: seq<bool>)
    requires 106.8017998 <= lon <= 107.0098827
    requires !InAnyBerthingZone(inBerth) || speed > 6.0
    ensures speed <= 0.9 ==> ClassifyShipStatus(-5.95, lon, speed, inBerth) == "Anchoring"
    ensures 0.9 < speed <= 12.0 ==> ClassifyShipStatus(-5.95, lon, speed, inBerth) == "Approaching"
    ensures 12.0 < speed <= 15.0 ==> ClassifyShipStatus(-5.95, lon, speed, inBerth) == "Arrival"
    ensures 15.0 < speed ==> ClassifyShipStatus(-5.95, lon, speed, inBerth) == "Outside_Port"
  {
    BerthingSearchAnyZone(inBerth, 0, speed);
  }
}
