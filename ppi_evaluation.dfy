/** The port performance indicator evaluation of myapp/ppi_evaluation.py
    (populate_ppi_evaluation): per (mmsi, day), compare each phase's hours with
    the port standard and the fleet average, and add a recommendation. */
module PpiEvaluation {

  import opened Wrappers

  /** The four phase tables, in the order the source walks them. */
  datatype Phase = Waiting | Approaching | Berthing | Trt

  const PHASES: seq<Phase> := [Waiting, Approaching, Berthing, Trt]

  /** Position of a phase in PHASES. */
  function PhaseIndex(p: Phase): (i: nat)
    ensures i < |PHASES| && PHASES[i] == p
  {
    match p
    case Waiting => 0
    case Approaching => 1
    case Berthing => 2
    case Trt => 3
  }

  /** Tanjung Priok port standards, in hours. */
  function PortStandardHours(p: Phase): (hours: real)
    ensures hours > 0.0
  {
    match p
    case Waiting => 1.0
    case Approaching => 2.0
    case Berthing => 18.78
    case Trt => 21.90
  }

  lemma PortStandards()
    ensures PortStandardHours(Waiting) == 1.0 && PortStandardHours(Approaching) == 2.0
    ensures PortStandardHours(Berthing) == 18.78 && PortStandardHours(Trt) == 21.90
  {
  }

  // ---------------------------------------------------------------------------
  // Scoring

  datatype Rating = TooLong | AboveStandard | RightOnTime

  function RatingText(r: Rating): string
  {
    match r
    case TooLong => "Too Long"
    case AboveStandard => "Above Standard"
    case RightOnTime => "Right on Time"
  }

  function Min(x: real, y: real): real { if x <= y then x else y }
  function Max(x: real, y: real): real { if x <= y then y else x }

  /** evaluate_phase: too long above both references, above standard below both,
      right on time anywhere in between them, ties included. */
  function EvaluatePhase(val: real, avg: real, std: real): (r: Rating)
    ensures r == TooLong <==> val > Max(avg, std)
    ensures r == AboveStandard <==> val < Min(avg, std)
    ensures r == RightOnTime <==> Min(avg, std) <= val <= Max(avg, std)
  {
    if val > std && val > avg then TooLong
    else if val < std && val < avg then AboveStandard
    else RightOnTime
  }

  function Severity(r: Rating): nat
  {
    match r
    case AboveStandard => 0
    case RightOnTime => 1
    case TooLong => 2
  }

  /** More hours never give a better rating. */
  lemma EvaluatePhaseMonotone(v1: real, v2: real, avg: real, std: real)
    requires v1 <= v2
    ensures Severity(EvaluatePhase(v1, avg, std)) <= Severity(EvaluatePhase(v2, avg, std))
  {
  }

  datatype Recommendation = Optimize | MeetsStandard | AheadOfStandard

  function RecommendationText(r: Recommendation): string
  {
    match r
    case Optimize => "Consider optimizing Waiting/Approaching/Berthing procedures."
    case MeetsStandard => "Operation meets standard across all phases."
    case AheadOfStandard => "Operation aheads of standards."
  }

  /** The stored texts tell the ratings apart. */
  lemma RatingTextInjective(r1: Rating, r2: Rating)
    requires RatingText(r1) == RatingText(r2)
    ensures r1 == r2
  {
    assert |RatingText(r1)| == |RatingText(r2)|;
  }

  /** The stored texts tell the recommendations apart. */
  lemma RecommendationTextInjective(c1: Recommendation, c2: Recommendation)
    requires RecommendationText(c1) == RecommendationText(c2)
    ensures c1 == c2
  {
    assert |RecommendationText(c1)| == |RecommendationText(c2)|;
  }

  /** The recommendation, from the waiting, approaching and berthing ratings only. */
  function Recommend(w: Rating, a: Rating, b: Rating): (rec: Recommendation)
    ensures rec == Optimize <==> w == TooLong || a == TooLong || b == TooLong
    ensures rec == MeetsStandard <==> w == RightOnTime && a == RightOnTime && b == RightOnTime
    ensures rec == AheadOfStandard <==>
              w != TooLong && a != TooLong && b != TooLong &&
              (w == AboveStandard || a == AboveStandard || b == AboveStandard)
  {
    var statuses := [w, a, b];
    assert statuses[0] == w && statuses[1] == a && statuses[2] == b;
    if exists i :: 0 <= i < |statuses| && statuses[i] == TooLong then Optimize
    else if forall i :: 0 <= i < |statuses| ==> statuses[i] == RightOnTime then MeetsStandard
    else AheadOfStandard
  }

  // ---------------------------------------------------------------------------
  // Merging the four daily tables into ship_day_data

  /** One row of a daily table: `SELECT mmsi, day, total_hours`. Days are day numbers. */
  datatype DailyRow = DailyRow(mmsi: int, day: int, totalHours: real)

  datatype DailyTables = DailyTables(
    waiting: seq<DailyRow>,
    approaching: seq<DailyRow>,
    berthing: seq<DailyRow>,
    trt: seq<DailyRow>)
  {
    function Rows(p: Phase): seq<DailyRow>
    {
      match p
      case Waiting => waiting
      case Approaching => approaching
      case Berthing => berthing
      case Trt => trt
    }
  }

  datatype ShipDay = ShipDay(mmsi: int, day: int)

  /** A row read from the table of `phase`. */
  datatype Entry = Entry(phase: Phase, row: DailyRow)

  function KeyOf(e: Entry): ShipDay
  {
    ShipDay(e.row.mmsi, e.row.day)
  }

  function Tag(p: Phase, rows: seq<DailyRow>): (es: seq<Entry>)
    ensures |es| == |rows|
    ensures forall i :: 0 <= i < |rows| ==> es[i] == Entry(p, rows[i])
  {
    seq(|rows|, i requires 0 <= i < |rows| => Entry(p, rows[i]))
  }

  /** The rows of the first `n` phase tables, in the order they are read. */
  function StreamUpTo(tables: DailyTables, n: nat): seq<Entry>
    requires n <= |PHASES|
  {
    if n == 0 then [] else StreamUpTo(tables, n - 1) + Tag(PHASES[n - 1], tables.Rows(PHASES[n - 1]))
  }

  function Stream(tables: DailyTables): seq<Entry>
  {
    StreamUpTo(tables, |PHASES|)
  }

  /** ship_day_data: the keys in insertion order and, per key, the hours by phase. */
  datatype Merged = Merged(order: seq<ShipDay>, hours: map<ShipDay, map<Phase, real>>)

  function MergeStep(m: Merged, e: Entry): Merged
  {
    var key := KeyOf(e);
    if key in m.hours then Merged(m.order, m.hours[key := m.hours[key][e.phase := e.row.totalHours]])
    else Merged(m.order + [key], m.hours[key := map[e.phase := e.row.totalHours]])
  }

  function Lookup(hours: map<Phase, real>, p: Phase): Option<real>
  {
    if p in hours then Some(hours[p]) else None
  }

  /** The hours of the last entry for `key` and `p`, if any. */
  function LastHours(es: seq<Entry>, key: ShipDay, p: Phase): (h: Option<real>)
    ensures h.Some? <==> exists i :: 0 <= i < |es| && KeyOf(es[i]) == key && es[i].phase == p
  {
    if es == [] then None
    else if KeyOf(es[|es| - 1]) == key && es[|es| - 1].phase == p then Some(es[|es| - 1].row.totalHours)
    else LastHours(es[..|es| - 1], key, p)
  }

  /** Entry `i` is for `key` and `p`. */
  predicate Matches(es: seq<Entry>, i: int, key: ShipDay, p: Phase)
    requires 0 <= i < |es|
  {
    KeyOf(es[i]) == key && es[i].phase == p
  }

  /** The hours found are those of the last matching entry: no later entry matches. */
  lemma {:induction false} LastHoursIsLastMatch(es: seq<Entry>, key: ShipDay, p: Phase)
    ensures LastHours(es, key, p).Some? ==>
              exists i :: 0 <= i < |es| && Matches(es, i, key, p) &&
                          LastHours(es, key, p).value == es[i].row.totalHours &&
                          forall j :: i < j < |es| ==> !Matches(es, j, key, p)
  {
    if es != [] && !Matches(es, |es| - 1, key, p) {
      var init := es[..|es| - 1];
      LastHoursIsLastMatch(init, key, p);
      if LastHours(init, key, p).Some? {
        var i :| 0 <= i < |init| && Matches(init, i, key, p) &&
                 LastHours(init, key, p).value == init[i].row.totalHours &&
                 forall j :: i < j < |init| ==> !Matches(init, j, key, p);
        assert Matches(es, i, key, p);
        forall j | i < j < |es| ensures !Matches(es, j, key, p) {
          if j < |init| {
            assert !Matches(init, j, key, p);
          }
        }
      }
    }
  }

  /** Some entry of `es` is for `key`. */
  predicate InStream(es: seq<Entry>, key: ShipDay)
  {
    exists i :: 0 <= i < |es| && KeyOf(es[i]) == key
  }

  predicate NoDuplicates<T(==)>(s: seq<T>)
  {
    forall i, j :: 0 <= i < j < |s| ==> s[i] != s[j]
  }

  /** The merge: ship_day_data after reading the entries `es` in order. */
  function MergeEntries(es: seq<Entry>): Merged
  {
    if es == [] then Merged([], map[])
    else MergeStep(MergeEntries(es[..|es| - 1]), es[|es| - 1])
  }

  /** One key per distinct (mmsi, day) read, in order of first appearance. */
  lemma {:induction false} MergeEntriesKeys(es: seq<Entry>)
    ensures var m := MergeEntries(es);
      && (forall k :: k in m.hours <==> k in m.order)
      && NoDuplicates(m.order)
      && (forall k :: k in m.order <==> InStream(es, k))
  {
    if es != [] {
      var init := es[..|es| - 1];
      MergeEntriesKeys(init);
      assert forall i :: 0 <= i < |init| ==> init[i] == es[i];
      var e := es[|es| - 1];
      forall k | InStream(es, k) && k != KeyOf(e) ensures InStream(init, k) {
        var i :| 0 <= i < |es| && KeyOf(es[i]) == k;
        assert i < |init|;
      }
    }
  }

  /** Per key and phase, the merge holds the hours of the last row read for them. */
  lemma {:induction false} MergeEntriesHours(es: seq<Entry>, k: ShipDay, p: Phase)
    requires k in MergeEntries(es).hours
    ensures Lookup(MergeEntries(es).hours[k], p) == LastHours(es, k, p)
  {
    var init := es[..|es| - 1];
    var e := es[|es| - 1];
    var before := MergeEntries(init);
    MergeEntriesKeys(init);
    if k in before.hours {
      MergeEntriesHours(init, k, p);
    } else {
      assert k == KeyOf(e);
      if p != e.phase {
        assert LastHours(init, k, p) == None;
      }
    }
  }

  lemma MergeEntriesSnoc(done: seq<Entry>, e: Entry)
    ensures MergeEntries(done + [e]) == MergeStep(MergeEntries(done), e)
  {
    assert (done + [e])[..|done|] == done;
  }

  lemma TagSnoc(p: Phase, rows: seq<DailyRow>, i: nat)
    requires i < |rows|
    ensures Tag(p, rows[..i + 1]) == Tag(p, rows[..i]) + [Entry(p, rows[i])]
  {
  }

  /** The loop that fills ship_day_data, table after table, row after row. */
  method MergeShipDays(tables: DailyTables) returns (order: seq<ShipDay>, shipDayData: map<ShipDay, map<Phase, real>>)
    ensures Merged(order, shipDayData) == MergeEntries(Stream(tables))
  {
    order, shipDayData := [], map[];
    for j := 0 to |PHASES|
      invariant Merged(order, shipDayData) == MergeEntries(StreamUpTo(tables, j))
    {
      var phase := PHASES[j];
      order, shipDayData := MergeRows(phase, tables.Rows(phase), order, shipDayData, StreamUpTo(tables, j));
    }
  }

  /** The inner loop of the merge: the rows of one phase table, read in order. */
  method MergeRows(phase: Phase, rows: seq<DailyRow>, order0: seq<ShipDay>, data0: map<ShipDay, map<Phase, real>>,
                   ghost done0: seq<Entry>)
    returns (order: seq<ShipDay>, shipDayData: map<ShipDay, map<Phase, real>>)
    requires Merged(order0, data0) == MergeEntries(done0)
    ensures Merged(order, shipDayData) == MergeEntries(done0 + Tag(phase, rows))
  {
    order, shipDayData := order0, data0;
    ghost var done := done0;
    assert Tag(phase, rows[..0]) == [];
    for i := 0 to |rows|
      invariant done == done0 + Tag(phase, rows[..i])
      invariant Merged(order, shipDayData) == MergeEntries(done)
    {
      var row := rows[i];
      var key := ShipDay(row.mmsi, row.day);
      ghost var before := Merged(order, shipDayData);
      if key in shipDayData {
        shipDayData := shipDayData[key := shipDayData[key][phase := row.totalHours]];
      } else {
        shipDayData := shipDayData[key := map[phase := row.totalHours]];
        order := order + [key];
      }
      assert Merged(order, shipDayData) == MergeStep(before, Entry(phase, row));
      MergeEntriesSnoc(done, Entry(phase, row));
      TagSnoc(phase, rows, i);
      done := done + [Entry(phase, row)];
    }
    assert rows[..|rows|] == rows;
  }

  // ---------------------------------------------------------------------------
  // Averages and evaluation

  function SumHours(rows: seq<DailyRow>): real
  {
    if rows == [] then 0.0 else SumHours(rows[..|rows| - 1]) + rows[|rows| - 1].totalHours
  }

  /** `SELECT AVG(total_hours)` followed by `or 0`: an empty table averages to 0. */
  function PhaseAverage(rows: seq<DailyRow>): (avg: real)
    ensures rows == [] ==> avg == 0.0
  {
    if rows == [] then 0.0 else SumHours(rows) / (|rows| as real)
  }

  lemma {:induction false} SumHoursBounds(rows: seq<DailyRow>, lo: real, hi: real)
    requires forall i :: 0 <= i < |rows| ==> lo <= rows[i].totalHours <= hi
    ensures (|rows| as real) * lo <= SumHours(rows) <= (|rows| as real) * hi
  {
    if rows != [] {
      var init := rows[..|rows| - 1];
      assert forall i :: 0 <= i < |init| ==> init[i] == rows[i];
      SumHoursBounds(init, lo, hi);
    }
  }

  /** The average of a non-empty table lies within any bounds of its rows. */
  lemma PhaseAverageWithin(rows: seq<DailyRow>, lo: real, hi: real)
    requires rows != []
    requires forall i :: 0 <= i < |rows| ==> lo <= rows[i].totalHours <= hi
    ensures lo <= PhaseAverage(rows) <= hi
  {
    SumHoursBounds(rows, lo, hi);
    var n := |rows| as real;
    var avg := PhaseAverage(rows);
    assert avg * n == SumHours(rows);
    assert (avg - lo) * n >= 0.0;
    assert (hi - avg) * n >= 0.0;
  }

  predicate HasAllPhases(avgs: map<Phase, real>)
  {
    Waiting in avgs && Approaching in avgs && Berthing in avgs && Trt in avgs
  }

  /** The loop that fills avg_durations. */
  method AverageDurations(tables: DailyTables) returns (avgDurations: map<Phase, real>)
    ensures HasAllPhases(avgDurations)
    ensures forall p :: p in avgDurations ==> avgDurations[p] == PhaseAverage(tables.Rows(p))
  {
    avgDurations := map[];
    for j := 0 to |PHASES|
      invariant forall p :: p in avgDurations <==> p in PHASES[..j]
      invariant forall p :: p in avgDurations ==> avgDurations[p] == PhaseAverage(tables.Rows(p))
    {
      var phase := PHASES[j];
      avgDurations := avgDurations[phase := PhaseAverage(tables.Rows(phase))];
    }
    assert PHASES[..|PHASES|] == PHASES;
  }

  /** One row of ppi_evaluation_table. */
  datatype EvaluationRecord = EvaluationRecord(
    mmsi: int,
    day: int,
    waitingHours: real,
    approachingHours: real,
    berthingHours: real,
    trtHours: real,
    waitingStatus: Rating,
    approachingStatus: Rating,
    berthingStatus: Rating,
    trtStatus: Rating,
    recommendation: Recommendation)

  function GetOr(hours: map<Phase, real>, p: Phase, default: real): real
  {
    if p in hours then hours[p] else default
  }

  /** The evaluation of one (mmsi, day). */
  function EvaluateShipDay(key: ShipDay, data: map<Phase, real>, avgs: map<Phase, real>): (r: EvaluationRecord)
    requires HasAllPhases(avgs)
    ensures r.mmsi == key.mmsi && r.day == key.day
    ensures r.waitingHours == (if Waiting in data then data[Waiting] else 0.0)
    ensures r.approachingHours == (if Approaching in data then data[Approaching] else 0.0)
    ensures r.berthingHours == (if Berthing in data then data[Berthing] else 0.0)
    ensures r.trtHours == (if Trt in data then data[Trt] else r.waitingHours + r.approachingHours + r.berthingHours)
    ensures r.waitingStatus == EvaluatePhase(r.waitingHours, avgs[Waiting], 1.0)
    ensures r.approachingStatus == EvaluatePhase(r.approachingHours, avgs[Approaching], 2.0)
    ensures r.berthingStatus == EvaluatePhase(r.berthingHours, avgs[Berthing], 18.78)
    ensures r.trtStatus == EvaluatePhase(r.trtHours, avgs[Trt], 21.90)
    ensures r.recommendation == Recommend(r.waitingStatus, r.approachingStatus, r.berthingStatus)
  {
    var w := GetOr(data, Waiting, 0.0);
    var a := GetOr(data, Approaching, 0.0);
    var b := GetOr(data, Berthing, 0.0);
    var t := GetOr(data, Trt, w + a + b);
    var wStatus := EvaluatePhase(w, avgs[Waiting], PortStandardHours(Waiting));
    var aStatus := EvaluatePhase(a, avgs[Approaching], PortStandardHours(Approaching));
    var bStatus := EvaluatePhase(b, avgs[Berthing], PortStandardHours(Berthing));
    var tStatus := EvaluatePhase(t, avgs[Trt], PortStandardHours(Trt));
    EvaluationRecord(key.mmsi, key.day, w, a, b, t, wStatus, aStatus, bStatus, tStatus,
                     Recommend(wStatus, aStatus, bStatus))
  }

  /** The TRT hours never change the recommendation. */
  lemma TrtNeverAffectsRecommendation(key: ShipDay, data: map<Phase, real>, avgs: map<Phase, real>, trtHours: real)
    requires HasAllPhases(avgs)
    ensures EvaluateShipDay(key, data[Trt := trtHours], avgs).recommendation ==
            EvaluateShipDay(key, data - {Trt}, avgs).recommendation
    ensures EvaluateShipDay(key, data[Trt := trtHours], avgs).recommendation ==
            EvaluateShipDay(key, data, avgs).recommendation
  {
  }

  /** The loop that builds `records`, one per key of ship_day_data. */
  method EvaluateShipDays(merged: Merged, avgs: map<Phase, real>) returns (records: seq<EvaluationRecord>)
    requires HasAllPhases(avgs)
    requires forall k :: k in merged.order ==> k in merged.hours
    ensures |records| == |merged.order|
    ensures forall i :: 0 <= i < |records| ==>
              records[i] == EvaluateShipDay(merged.order[i], merged.hours[merged.order[i]], avgs)
  {
    records := [];
    for i := 0 to |merged.order|
      invariant |records| == i
      invariant forall k :: 0 <= k < i ==>
                  records[k] == EvaluateShipDay(merged.order[k], merged.hours[merged.order[k]], avgs)
    {
      var key := merged.order[i];
      records := records + [EvaluateShipDay(key, merged.hours[key], avgs)];
    }
  }

  /** Everything one run writes to ppi_evaluation_table. */
  function Evaluations(tables: DailyTables): (records: seq<EvaluationRecord>)
  {
    var merged := MergeEntries(Stream(tables));
    var avgs := map p | p in PHASES :: PhaseAverage(tables.Rows(p));
    MergeEntriesKeys(Stream(tables));
    seq(|merged.order|, i requires 0 <= i < |merged.order| =>
      EvaluateShipDay(merged.order[i], merged.hours[merged.order[i]], avgs))
  }

  /** Some table has a row for (mmsi, day). */
  predicate SeenInSomeTable(tables: DailyTables, key: ShipDay)
  {
    exists p: Phase, i :: 0 <= i < |tables.Rows(p)| &&
      tables.Rows(p)[i].mmsi == key.mmsi && tables.Rows(p)[i].day == key.day
  }

  /** One of the first `n` tables has a row for (mmsi, day). */
  predicate SeenInFirstTables(tables: DailyTables, n: nat, key: ShipDay)
  {
    exists p: Phase, i :: PhaseIndex(p) < n && 0 <= i < |tables.Rows(p)| &&
      tables.Rows(p)[i].mmsi == key.mmsi && tables.Rows(p)[i].day == key.day
  }

  lemma StreamUpToStep(tables: DailyTables, n: nat, key: ShipDay)
    requires 0 < n <= |PHASES|
    requires InStream(StreamUpTo(tables, n - 1), key) <==> SeenInFirstTables(tables, n - 1, key)
    ensures InStream(StreamUpTo(tables, n), key) ==> SeenInFirstTables(tables, n, key)
  {
    var prev := StreamUpTo(tables, n - 1);
    var p := PHASES[n - 1];
    var rows := tables.Rows(p);
    var all := StreamUpTo(tables, n);
    assert all == prev + Tag(p, rows);
    if InStream(all, key) {
      var i :| 0 <= i < |all| && KeyOf(all[i]) == key;
      if i >= |prev| {
        assert all[i] == Entry(p, rows[i - |prev|]);
        assert PhaseIndex(p) == n - 1;
      } else {
        assert all[i] == prev[i];
        assert InStream(prev, key);
        var q: Phase, j :| PhaseIndex(q) < n - 1 && 0 <= j < |tables.Rows(q)| &&
          tables.Rows(q)[j].mmsi == key.mmsi && tables.Rows(q)[j].day == key.day;
      }
    }
  }

  lemma StreamUpToStepBack(tables: DailyTables, n: nat, key: ShipDay)
    requires 0 < n <= |PHASES|
    requires InStream(StreamUpTo(tables, n - 1), key) <==> SeenInFirstTables(tables, n - 1, key)
    ensures SeenInFirstTables(tables, n, key) ==> InStream(StreamUpTo(tables, n), key)
  {
    var prev := StreamUpTo(tables, n - 1);
    var p := PHASES[n - 1];
    var rows := tables.Rows(p);
    var all := StreamUpTo(tables, n);
    assert all == prev + Tag(p, rows);
    if SeenInFirstTables(tables, n, key) {
      var q: Phase, i :| PhaseIndex(q) < n && 0 <= i < |tables.Rows(q)| &&
        tables.Rows(q)[i].mmsi == key.mmsi && tables.Rows(q)[i].day == key.day;
      if PhaseIndex(q) == n - 1 {
        assert q == p;
        assert all[|prev| + i] == Entry(p, rows[i]);
      } else {
        assert SeenInFirstTables(tables, n - 1, key);
        var i' :| 0 <= i' < |prev| && KeyOf(prev[i']) == key;
        assert all[i'] == prev[i'];
      }
    }
  }

  lemma {:induction false} StreamUpToKeys(tables: DailyTables, n: nat, key: ShipDay)
    requires n <= |PHASES|
    ensures InStream(StreamUpTo(tables, n), key) <==> SeenInFirstTables(tables, n, key)
  {
    if n > 0 {
      StreamUpToKeys(tables, n - 1, key);
      StreamUpToStep(tables, n, key);
      StreamUpToStepBack(tables, n, key);
    }
  }

  function RecordKey(r: EvaluationRecord): ShipDay
  {
    ShipDay(r.mmsi, r.day)
  }

  lemma EvaluationKeys(tables: DailyTables)
    ensures var merged := MergeEntries(Stream(tables));
      var records := Evaluations(tables);
      |records| == |merged.order| &&
      forall i :: 0 <= i < |records| ==> RecordKey(records[i]) == merged.order[i]
  {
  }

  lemma MergedKeysAreSeen(tables: DailyTables, key: ShipDay)
    ensures key in MergeEntries(Stream(tables)).order <==> SeenInSomeTable(tables, key)
  {
    StreamUpToKeys(tables, |PHASES|, key);
    MergeEntriesKeys(Stream(tables));
    if SeenInSomeTable(tables, key) {
      var p: Phase, i :| 0 <= i < |tables.Rows(p)| &&
        tables.Rows(p)[i].mmsi == key.mmsi && tables.Rows(p)[i].day == key.day;
      assert PhaseIndex(p) < |PHASES|;
      assert SeenInFirstTables(tables, |PHASES|, key);
    }
  }

  /** Exactly one evaluation per distinct (mmsi, day) seen in any of the four tables. */
  lemma OneEvaluationPerShipDay(tables: DailyTables)
    ensures var records := Evaluations(tables);
      && (forall i, j :: 0 <= i < j < |records| ==> RecordKey(records[i]) != RecordKey(records[j]))
      && (forall key :: (exists i :: 0 <= i < |records| && RecordKey(records[i]) == key) <==>
                        SeenInSomeTable(tables, key))
  {
    var merged := MergeEntries(Stream(tables));
    var records := Evaluations(tables);
    EvaluationKeys(tables);
    MergeEntriesKeys(Stream(tables));
    forall key
      ensures (exists i :: 0 <= i < |records| && RecordKey(records[i]) == key) <==>
              SeenInSomeTable(tables, key)
    {
      MergedKeysAreSeen(tables, key);
      if key in merged.order {
        var i :| 0 <= i < |merged.order| && merged.order[i] == key;
        assert RecordKey(records[i]) == key;
      }
    }
  }

  /** Within one table, a later row for the same (mmsi, day) overwrites an earlier
      one; rows of different tables never overwrite each other. */
  lemma LastRowWins(tables: DailyTables, key: ShipDay, p: Phase)
    requires key in MergeEntries(Stream(tables)).hours
    ensures Lookup(MergeEntries(Stream(tables)).hours[key], p) == LastHours(Tag(p, tables.Rows(p)), key, p)
  {
    MergeEntriesHours(Stream(tables), key, p);
    LastHoursStreamUpTo(tables, |PHASES|, key, p);
  }

  lemma {:induction false} LastHoursAppend(a: seq<Entry>, b: seq<Entry>, key: ShipDay, p: Phase)
    ensures LastHours(a + b, key, p) == if LastHours(b, key, p).Some? then LastHours(b, key, p) else LastHours(a, key, p)
  {
    if b == [] {
      assert a + b == a;
    } else {
      assert (a + b)[..|a + b| - 1] == a + b[..|b| - 1];
      LastHoursAppend(a, b[..|b| - 1], key, p);
    }
  }

  lemma {:induction false} LastHoursOtherPhase(q: Phase, rows: seq<DailyRow>, key: ShipDay, p: Phase)
    requires q != p
    ensures LastHours(Tag(q, rows), key, p) == None
  {
    if rows != [] {
      assert Tag(q, rows)[..|rows| - 1] == Tag(q, rows[..|rows| - 1]);
      LastHoursOtherPhase(q, rows[..|rows| - 1], key, p);
    }
  }

  /** Reading one more table: its last match wins over everything read before. */
  lemma LastHoursStreamStep(tables: DailyTables, n: nat, key: ShipDay, p: Phase)
    requires 0 < n <= |PHASES|
    ensures var tagged := LastHours(Tag(PHASES[n - 1], tables.Rows(PHASES[n - 1])), key, p);
      LastHours(StreamUpTo(tables, n), key, p) ==
        if tagged.Some? then tagged else LastHours(StreamUpTo(tables, n - 1), key, p)
  {
    var q := PHASES[n - 1];
    LastHoursAppend(StreamUpTo(tables, n - 1), Tag(q, tables.Rows(q)), key, p);
  }

  lemma PhaseAt(i: nat, p: Phase)
    requires i < |PHASES|
    ensures PHASES[i] == p <==> PhaseIndex(p) == i
  {
  }

  lemma {:induction false} LastHoursStreamUpTo(tables: DailyTables, n: nat, key: ShipDay, p: Phase)
    requires n <= |PHASES|
    ensures LastHours(StreamUpTo(tables, n), key, p) ==
              if PhaseIndex(p) < n then LastHours(Tag(p, tables.Rows(p)), key, p) else None
  {
    if n > 0 {
      var q := PHASES[n - 1];
      LastHoursStreamUpTo(tables, n - 1, key, p);
      LastHoursStreamStep(tables, n, key, p);
      PhaseAt(n - 1, p);
      if q != p {
        LastHoursOtherPhase(q, tables.Rows(q), key, p);
      }
    }
  }

  /** ppi_evaluation_table. */
  class PpiEvaluationTable {
    var rows: seq<EvaluationRecord>

    constructor (initial: seq<EvaluationRecord>)
      ensures rows == initial
    {
      rows := initial;
    }

    /** `DROP TABLE IF EXISTS` followed by `CREATE TABLE`: the table is empty. */
    method Recreate()
      modifies this
      ensures rows == []
    {
      rows := [];
    }

    /** `executemany(INSERT ...)`: the batch is appended in order. */
    method InsertMany(batch: seq<EvaluationRecord>)
      modifies this
      ensures rows == old(rows) + batch
    {
      rows := rows + batch;
    }
  }

  /** populate_ppi_evaluation: rebuild the table from the four daily tables. */
  method PopulatePpiEvaluation(tables: DailyTables, table: PpiEvaluationTable) returns (inserted: nat)
    modifies table
    ensures table.rows == Evaluations(tables)
    ensures inserted == |table.rows|
  {
    table.Recreate();
    var order, shipDayData := MergeShipDays(tables);
    var avgDurations := AverageDurations(tables);
    MergeEntriesKeys(Stream(tables));
    ghost var avgs := map p | p in PHASES :: PhaseAverage(tables.Rows(p));
    assert avgDurations == avgs by {
      forall p: Phase ensures p in avgs && avgDurations[p] == avgs[p] {
        assert PHASES[PhaseIndex(p)] == p;
      }
    }
    var records := EvaluateShipDays(Merged(order, shipDayData), avgDurations);
    assert records == Evaluations(tables);
    table.InsertMany(records);
    inserted := |records|;
  }
}
