# Port performance core, modelled in Dafny

This project models the sequential core of a port-performance system for the
port of Tanjung Priok. The system turns filtered AIS vessel observations into
per-vessel phase durations, classifies raw positions into status labels, and
scores daily phase hours against port standards. Three Python files are
modelled, one Dafny module each:

- `phase_tracker.dfy`, module `PhaseTracker` (myapp/phase_tracker.py).
  `compute_phase_durations` groups the records by vessel (MMSI) and walks each
  vessel's records in reception order. Whenever the raw status changes, it
  closes a segment that carries the normalised old status (`PHASE_MAP`). It
  drops zero-duration segments and closes a tail segment at the vessel's last
  record. Finally it replaces the whole `ship_phase_duration` table with the
  results and counts them per phase. The grouping loop and the per-vessel loop
  are methods (`GroupByVessel`, `ScanVessel`). Each is proved equal to a
  specification function (`VesselOrder`/`RecordsOf`, and `VesselSegments`,
  built on the prefix fold `ScanPrefix`). The table is a class whose rows are
  deleted and then refilled. The main theorem (`VesselSegmentsTile`) says that
  for time-sorted records whose last status is non-empty, a vessel's segments
  tile its observed span. The
  segments are contiguous, each has positive duration, and together they cover
  exactly the time from the first record to the last.
- `zone_classifier.dfy`, module `ZoneClassifier` (myapp/zone_classifier.py).
  `classify_ship_status` checks the berthing zones first, then the fairway
  (Zone 2), then the anchorage (Zone 1), and otherwise returns `Outside_Port`.
  Zones 1 and 2 are closed latitude/longitude rectangles over `real`. The 14
  berthing quadrilaterals are given by their `covers` answers (`inBerth[k]`,
  one per zone, in list order).
- `ppi_evaluation.dfy`, module `PpiEvaluation` (myapp/ppi_evaluation.py).
  `populate_ppi_evaluation` does four things:
  - merges the four daily tables into one entry per `(mmsi, day)`, in order of
    first appearance;
  - averages each table, giving 0 for an empty table;
  - rates each phase against its standard and the average (`evaluate_phase`);
  - adds a recommendation, then rebuilds `ppi_evaluation_table`.
- `wrappers.dfy`, module `Wrappers`: the `Option` datatype.

Times are whole seconds. Speeds, positions and hours are exact `real`s.

## Model

| member | source | states |
|---|---|---|
| PhaseTracker.Normalize | myapp/phase_tracker.py:7-13 | a status in `PHASE_MAP` becomes Waiting, Approaching or Berthing; any other label passes through unchanged |
| PhaseTracker.NormalizeTable | myapp/phase_tracker.py:7-13 | Postponed/Anchoring→Waiting, Approaching/Maneuvering→Approaching, Berthing→Berthing, every other label unchanged; normalising twice equals normalising once |
| PhaseTracker.Close | myapp/phase_tracker.py:39-61 | closing the open status yields exactly one segment when the end is later than the start and none otherwise; that segment spans start..end, carries the normalised old status and has duration end − start (minutes and hours as seconds/60 and seconds/3600) |
| PhaseTracker.ScanPrefix | myapp/phase_tracker.py:26-61 | after the loop has read some records a status is open iff at least one record was read, and the open status is always the status of the last record read; every emitted segment is well formed and belongs to the vessel |
| PhaseTracker.VesselSegments | myapp/phase_tracker.py:26-82 | every segment of a vessel, including the tail up to its last record, has positive duration equal to its span and carries the vessel's MMSI |
| PhaseTracker.ScanVessel | myapp/phase_tracker.py:27-82 | the per-record loop (first record only opens; a change closes a segment unless it has zero duration, then restarts at the changing record; tail emitted only when the open status is a non-empty string and its duration is positive) returns exactly `VesselSegments` |
| PhaseTracker.ScanPrefixTiles | myapp/phase_tracker.py:34-61 | for time-sorted records, the open segment starts at a time between the first and last record, and the emitted segments tile the time from the first record up to it |
| PhaseTracker.VesselSegmentsTile | myapp/phase_tracker.py:30-82 | for time-sorted records whose last status is non-empty, the vessel's segments start at its first record, end at its last, and each starts where the previous one ends |
| PhaseTracker.VesselSegmentsSumToSpan | myapp/phase_tracker.py:30-82 | for time-sorted records: each segment has positive `duration_seconds`, consecutive segments meet, segments are in time order, and the durations sum to the last timestamp minus the first |
| PhaseTracker.VesselSegmentCount | myapp/phase_tracker.py:39-82 | a vessel emits at most (number of status changes + 1) segments, and at least one when its sorted records span positive time |
| PhaseTracker.SameInstantYieldsNothing | myapp/phase_tracker.py:34-69 | a vessel with a single record, or with all records at the same instant, yields no segment |
| PhaseTracker.ZeroDurationTransitionExample | myapp/phase_tracker.py:39-82 | a change at the instant the open status began emits nothing but switches the scan to the new status, which is then closed normally |
| PhaseTracker.ScanPrefixOrigins | myapp/phase_tracker.py:39-61 | every emitted segment starts at the time of one of the vessel's records and carries that record's normalised status; the open status and its start come from one record |
| PhaseTracker.VesselOrder | myapp/phase_tracker.py:18-22 | the keys of `ships_data`: each vessel with a record appears exactly once, and no other |
| PhaseTracker.RecordsOf | myapp/phase_tracker.py:18-22 | `ships_data[m]` holds only records of vessel m, taken from the query, and is empty iff m has no record |
| PhaseTracker.RecordsOfContents | myapp/phase_tracker.py:19-22 | `ships_data[m]` holds every record of vessel m exactly as many times as the query does, and no record of another vessel |
| PhaseTracker.RecordsOfConcat | myapp/phase_tracker.py:19-22 | grouping a query made of two parts gives the group of the first part followed by that of the second; with a one-record query giving that record or nothing (`RecordsOfSingle`), the group is every record of m, in query order |
| PhaseTracker.GroupByVessel | myapp/phase_tracker.py:18-22 | the grouping loop yields the keys in first-appearance order, and for each key the non-empty list of its records in query order |
| PhaseTracker.RecordsOfSorted | myapp/phase_tracker.py:19-22 | when the query is ordered by time within each vessel, every vessel's group is time-sorted |
| PhaseTracker.SegmentsFor | myapp/phase_tracker.py:24-82 | the results of the outer loop are well-formed segments of the vessels walked so far |
| PhaseTracker.TableRowsOfVessel | myapp/phase_tracker.py:26-96 | the table rows of vessel m are exactly that vessel's scan, in order |
| PhaseTracker.AllSegmentsTileEachVessel | myapp/phase_tracker.py:18-96 | for input sorted by time within each vessel, a vessel whose last record has a non-empty status has table rows that tile its observed span |
| PhaseTracker.PhaseCount | myapp/phase_tracker.py:98 | a phase count never exceeds the number of results, and is zero iff no result has that phase |
| PhaseTracker.PhaseCountIsMultiplicity | myapp/phase_tracker.py:98 | the count of a phase is its multiplicity in the multiset of the results' phase column, which is what `Counter` holds |
| PhaseTracker.CountPhases | myapp/phase_tracker.py:98 | the summary has a key for exactly the phases present in the results, each with the number of results carrying it |
| PhaseTracker.PhaseDurationTable.DeleteAll | myapp/phase_tracker.py:86-87 | the table is empty afterwards |
| PhaseTracker.PhaseDurationTable.InsertMany | myapp/phase_tracker.py:89-96 | the batch is appended to the table in order |
| PhaseTracker.ComputePhaseDurations | myapp/phase_tracker.py:15-98 | afterwards the table holds exactly the results of the run, whatever it held before, and the summary counts each phase of those rows |
| ZoneClassifier.BerthingSearch | myapp/zone_classifier.py:43-52 | the zone loop returns only Berthing or Maneuvering, and only when some zone covers the point |
| ZoneClassifier.BerthingSearchAnyZone | myapp/zone_classifier.py:43-52 | the zone loop gives Berthing when some zone covers the point and speed ≤ 0.2, Maneuvering when some zone covers it and 0.2 < speed ≤ 6, and nothing otherwise |
| ZoneClassifier.ClassifyShipStatus | myapp/zone_classifier.py:38-79 | the status is always one of Berthing, Maneuvering, Anchoring, Approaching, Postponed, Arrival, Outside_Port |
| ZoneClassifier.ClassifyCases | myapp/zone_classifier.py:38-79 | the full cascade, each label as an if-and-only-if: berthing zones (≤ 0.2 Berthing, ≤ 6 Maneuvering), then Zone 2 (≤ 0.9 Anchoring, ≤ 12 Approaching), then Zone 1 (≤ 0.9 Postponed, ≤ 15 Arrival), else Outside_Port, with faster ships falling through each stage |
| ZoneClassifier.ClassifyDependsOnlyOnSomeBerthingZone | myapp/zone_classifier.py:43-52 | the outcome depends only on whether some berthing zone covers the point, not on which |
| ZoneClassifier.FastShipInBerthingZoneFallsThrough | myapp/zone_classifier.py:51-55 | above 6 knots a berthing zone contributes nothing: the point is classified as if no berthing zone covered it |
| ZoneClassifier.SharedEdgeGoesToZone2 | myapp/zone_classifier.py:55-72 | on the latitude −5.95 edge shared by the closed Zones 1 and 2, up to 12 knots the Zone 2 label wins; 12–15 knots gives Arrival; above 15 gives Outside_Port |
| PpiEvaluation.PortStandardHours | myapp/ppi_evaluation.py:5-10 | every port standard is a positive number of hours |
| PpiEvaluation.PortStandards | myapp/ppi_evaluation.py:5-10 | the standards are Waiting 1.0, Approaching 2.0, Berthing 18.78, TRT 21.90 |
| PpiEvaluation.EvaluatePhase | myapp/ppi_evaluation.py:35-41 | Too Long iff the value exceeds both the standard and the average; Above Standard iff it is below both; Right on Time iff it lies between them, ties included; the three are exclusive and exhaustive |
| PpiEvaluation.EvaluatePhaseMonotone | myapp/ppi_evaluation.py:35-41 | more hours never give a better rating |
| PpiEvaluation.RatingTextInjective | myapp/ppi_evaluation.py:35-41 | the three stored rating texts ("Too Long", "Above Standard", "Right on Time") are pairwise different, so the text determines the rating |
| PpiEvaluation.RecommendationTextInjective | myapp/ppi_evaluation.py:83-88 | the three stored recommendation texts are pairwise different, so the text determines the recommendation |
| PpiEvaluation.Recommend | myapp/ppi_evaluation.py:83-88 | optimise iff some of waiting/approaching/berthing is Too Long; meets standard iff all three are Right on Time; "aheads" iff none is Too Long and some is Above Standard |
| PpiEvaluation.LastHours | myapp/ppi_evaluation.py:54-59 | a value is found iff some row read has that (mmsi, day) and phase |
| PpiEvaluation.LastHoursIsLastMatch | myapp/ppi_evaluation.py:54-59 | a value found is the hours of a row with that (mmsi, day) and phase after which no row read has them, that is, of the last such row |
| PpiEvaluation.MergeEntriesKeys | myapp/ppi_evaluation.py:51-59 | `ship_day_data` has one key per distinct (mmsi, day) read, with no repeats in its key order |
| PpiEvaluation.MergeEntriesHours | myapp/ppi_evaluation.py:51-59 | for each key and phase, the merged value is that of the last row read for them, and absent if there was none |
| PpiEvaluation.MergeShipDays | myapp/ppi_evaluation.py:51-59 | the nested table/row loop produces exactly the merge of the four tables read in order Waiting, Approaching, Berthing, TRT |
| PpiEvaluation.MergeRows | myapp/ppi_evaluation.py:56-59 | the inner loop over one table's rows continues the merge of everything read before with those rows, in order |
| PpiEvaluation.LastRowWins | myapp/ppi_evaluation.py:54-59 | a phase value comes from that phase's own table, where a later row for the same (mmsi, day) overwrites an earlier one |
| PpiEvaluation.MergedKeysAreSeen | myapp/ppi_evaluation.py:51-59 | a (mmsi, day) is a key of the merge iff some of the four tables has a row for it |
| PpiEvaluation.PhaseAverage | myapp/ppi_evaluation.py:64-66 | an empty table (AVG is NULL) averages to 0 |
| PpiEvaluation.PhaseAverageWithin | myapp/ppi_evaluation.py:64-66 | the average of a non-empty table lies within any bounds of its rows |
| PpiEvaluation.AverageDurations | myapp/ppi_evaluation.py:62-66 | every phase gets the average of its own table |
| PpiEvaluation.EvaluateShipDay | myapp/ppi_evaluation.py:71-88 | missing waiting/approaching/berthing hours default to 0, missing TRT to w+a+b; each phase is rated against its fixed standard and its average; the recommendation depends only on the three phase ratings |
| PpiEvaluation.TrtNeverAffectsRecommendation | myapp/ppi_evaluation.py:75-88 | the TRT hours, present or absent, never change the recommendation |
| PpiEvaluation.EvaluateShipDays | myapp/ppi_evaluation.py:69-94 | one record per key of `ship_day_data`, in key order, each the evaluation of that key |
| PpiEvaluation.OneEvaluationPerShipDay | myapp/ppi_evaluation.py:51-94 | exactly one evaluation per distinct (mmsi, day) seen in any of the four daily tables |
| PpiEvaluation.PpiEvaluationTable.Recreate | myapp/ppi_evaluation.py:17-32 | after DROP and CREATE the table is empty |
| PpiEvaluation.PpiEvaluationTable.InsertMany | myapp/ppi_evaluation.py:97-104 | the batch is appended to the table in order |
| PpiEvaluation.PopulatePpiEvaluation | myapp/ppi_evaluation.py:12-106 | afterwards the table holds exactly the evaluations of the four daily tables, and the count reported is their number |

## Left out

- Database and logging I/O is not modelled: the Django ORM query, the `connection.cursor()` SQL (DROP, CREATE, DELETE, INSERT, SELECT, AVG) and every `print`. Query results are parameters. Table writes are the methods of `PhaseDurationTable` and `PpiEvaluationTable`.
- The per-status raw count that phase_tracker.py prints (lines 100-102) is left out, because it is only logged.
- Timestamps are integer seconds rather than datetimes. `int(total_seconds())` is therefore exact, and time zones do not arise.
- `round(x, 2)` on the minute and hour columns is not modelled: they are stored as the exact quotients seconds/60 and seconds/3600.
- Floats are modelled as exact reals. Python compares binary floats, so values within rounding distance of a threshold (0.2, 0.9, 18.78, …) may compare differently.
- A `None` status is not modelled, because the status column is a non-null string.
- An empty-string status is modelled as written: it is falsy in Python, so `if start_time and prev_status` skips that vessel's tail segment. For this reason the tiling theorems require a non-empty last status.
- NULL `total_hours` values inside a daily table are not modelled. Days are day numbers.
- ZoneClassifier.ClassifyShipStatus: the shapely `covers` test on the 14 berthing quadrilaterals is an input (`inBerth`), not computed. The quadrilaterals' geometry is not part of this model. `inBerth` may have any length rather than exactly 14. The outcome depends only on whether some entry is true (`ClassifyDependsOnlyOnSomeBerthingZone`), so the zone count does not matter.
- myapp/phase_tracker.py has no 72-hour cap, no cycle numbering, no Departure forcing, no deduplication of stored keys and no completeness labels, and the model adds none.
- The rest of the repository is not part of this model:
  - myapp/views.py: the HTTP view, geodesic distance and bearing;
  - myapp/daily_tables.py: SQL aggregation;
  - myapp/static/js/portArea.js: map rendering;
  - settings, routing, the ORM schema and the test-data generators.
