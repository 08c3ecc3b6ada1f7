/** Phase segmentation of filtered AIS records into the ship_phase_duration table
    (myapp/phase_tracker.py, compute_phase_durations).

    Times are whole seconds; the rounded minute and hour columns are kept as
    exact quotients of the seconds. */
module PhaseTracker {

  /** One filtered AIS observation: vessel, reception time in seconds, raw status label. */
  datatype Record = Record(mmsi: int, receivedAt: int, status: string)

  /** One row of ship_phase_duration, fields in the order the source inserts them. */
  datatype PhaseSegment = PhaseSegment(
    mmsi: int,
    phase: string,
    startTime: int,
    endTime: int,
    durationMinutes: real,
    durationSeconds: int,
    durationHours: real)

  /** Normalisation of raw statuses into phases. */
  const PHASE_MAP: map<string, string> := map[
    "Postponed" := "Waiting",
    "Anchoring" := "Waiting",
    "Approaching" := "Approaching",
    "Maneuvering" := "Approaching",
    "Berthing" := "Berthing"
  ]

  /** `PHASE_MAP.get(status, status)`: mapped statuses become a phase, the rest pass through. */
  function Normalize(status: string): (phase: string)
    ensures status in PHASE_MAP ==> phase in {"Waiting", "Approaching", "Berthing"}
    ensures status !in PHASE_MAP ==> phase == status
  {
    if status in PHASE_MAP then PHASE_MAP[status] else status
  }

  lemma NormalizeTable(status: string)
    ensures Normalize("Postponed") == "Waiting" && Normalize("Anchoring") == "Waiting"
    ensures Normalize("Approaching") == "Approaching" && Normalize("Maneuvering") == "Approaching"
    ensures Normalize("Berthing") == "Berthing"
    ensures status !in {"Postponed", "Anchoring", "Approaching", "Maneuvering", "Berthing"} ==>
              Normalize(status) == status
    ensures Normalize(Normalize(status)) == Normalize(status)
  {
  }

  /** A stored row is consistent: its duration is the positive span it covers. */
  predicate WellFormed(seg: PhaseSegment)
  {
    && seg.durationSeconds == seg.endTime - seg.startTime
    && seg.durationSeconds > 0
    && seg.durationMinutes == seg.durationSeconds as real / 60.0
    && seg.durationHours == seg.durationSeconds as real / 3600.0
  }

  function MakeSegment(mmsi: int, status: string, start: int, end: int): (seg: PhaseSegment)
    requires end > start
    ensures WellFormed(seg)
    ensures seg.mmsi == mmsi && seg.phase == Normalize(status)
    ensures seg.startTime == start && seg.endTime == end
  {
    var d := end - start;
    PhaseSegment(mmsi, Normalize(status), start, end, d as real / 60.0, d, d as real / 3600.0)
  }

  /** Closing the open status at `end`: one segment when time has passed, none otherwise. */
  function Close(mmsi: int, status: string, start: int, end: int): (segs: seq<PhaseSegment>)
    ensures |segs| == (if end > start then 1 else 0)
    ensures forall seg :: seg in segs ==>
              WellFormed(seg) && seg.mmsi == mmsi && seg.phase == Normalize(status) &&
              seg.startTime == start && seg.endTime == end
  {
    if end - start > 0 then [MakeSegment(mmsi, status, start, end)] else []
  }

  // ---------------------------------------------------------------------------
  // Specification of the per-vessel scan

  /** `prev_status`/`start_time`: both unset, or the open status and when it began. */
  datatype OpenStatus = Idle | Open(status: string, since: int)

  datatype ScanState = ScanState(open: OpenStatus, emitted: seq<PhaseSegment>)

  /** One iteration of the per-record loop. */
  function Step(mmsi: int, st: ScanState, r: Record): ScanState
  {
    match st.open
    case Idle => ScanState(Open(r.status, r.receivedAt), st.emitted)
    case Open(prev, since) =>
      if r.status != prev then
        ScanState(Open(r.status, r.receivedAt), st.emitted + Close(mmsi, prev, since, r.receivedAt))
      else st
  }

  /** The scan state after the loop has consumed `records`. */
  function ScanPrefix(mmsi: int, records: seq<Record>): (st: ScanState)
    ensures st.open.Open? <==> |records| > 0
    ensures |records| > 0 ==> st.open.status == records[|records| - 1].status
    ensures forall seg :: seg in st.emitted ==> WellFormed(seg) && seg.mmsi == mmsi
  {
    if records == [] then ScanState(Idle, [])
    else Step(mmsi, ScanPrefix(mmsi, records[..|records| - 1]), records[|records| - 1])
  }

  /** Every segment one vessel contributes: the closed transitions, then the tail
      segment up to the vessel's last record when the open status is truthy. */
  function VesselSegments(mmsi: int, records: seq<Record>): (segs: seq<PhaseSegment>)
    ensures forall seg :: seg in segs ==> WellFormed(seg) && seg.mmsi == mmsi
  {
    var st := ScanPrefix(mmsi, records);
    match st.open
    case Idle => st.emitted
    case Open(status, since) =>
      if status != "" then st.emitted + Close(mmsi, status, since, records[|records| - 1].receivedAt)
      else st.emitted
  }

  /** The per-vessel loop of compute_phase_durations. */
  method ScanVessel(mmsi: int, records: seq<Record>) returns (segs: seq<PhaseSegment>)
    ensures segs == VesselSegments(mmsi, records)
  {
    var open: OpenStatus := Idle;
    segs := [];
    for i := 0 to |records|
      invariant ScanState(open, segs) == ScanPrefix(mmsi, records[..i])
    {
      assert records[..i + 1][..i] == records[..i];
      var currentStatus := records[i].status;
      var timestamp := records[i].receivedAt;
      if open.Idle? {
        open := Open(currentStatus, timestamp);
        continue;
      }
      if currentStatus != open.status {
        var durationSeconds := timestamp - open.since;
        if durationSeconds > 0 {
          segs := segs + [MakeSegment(mmsi, open.status, open.since, timestamp)];
        }
        open := Open(currentStatus, timestamp);
      }
    }
    assert records[..|records|] == records;
    if open.Open? && open.status != "" {
      var endTime := records[|records| - 1].receivedAt;
      var durationSeconds := endTime - open.since;
      if durationSeconds > 0 {
        segs := segs + [MakeSegment(mmsi, open.status, open.since, endTime)];
      }
    }
  }

  // ---------------------------------------------------------------------------
  // Properties of one vessel's segments

  predicate TimeSorted(records: seq<Record>)
  {
    forall i, j :: 0 <= i < j < |records| ==> records[i].receivedAt <= records[j].receivedAt
  }

  /** `segs` are well-formed, contiguous, and cover exactly [from, to]. */
  predicate Tiles(segs: seq<PhaseSegment>, from: int, to: int)
  {
    && (segs == [] ==> from == to)
    && (segs != [] ==> segs[0].startTime == from && segs[|segs| - 1].endTime == to)
    && (forall k :: 0 <= k < |segs| ==> WellFormed(segs[k]))
    && (forall k :: 0 <= k < |segs| - 1 ==> segs[k].endTime == segs[k + 1].startTime)
  }

  function TotalSeconds(segs: seq<PhaseSegment>): int
  {
    if segs == [] then 0 else TotalSeconds(segs[..|segs| - 1]) + segs[|segs| - 1].durationSeconds
  }

  /** Number of records whose status differs from the record before. */
  function StatusChanges(records: seq<Record>): nat
  {
    if |records| <= 1 then 0
    else StatusChanges(records[..|records| - 1]) +
         (if records[|records| - 1].status != records[|records| - 2].status then 1 else 0)
  }

  lemma TilesDropLast(segs: seq<PhaseSegment>, from: int, to: int)
    requires Tiles(segs, from, to) && segs != []
    ensures Tiles(segs[..|segs| - 1], from, segs[|segs| - 1].startTime)
  {
    var n := |segs|;
    if n > 1 {
      assert segs[n - 2].endTime == segs[n - 1].startTime;
    }
  }

  lemma TilesAppend(segs: seq<PhaseSegment>, from: int, mid: int, extra: seq<PhaseSegment>, to: int)
    requires Tiles(segs, from, mid)
    requires |extra| == 1 && WellFormed(extra[0]) && extra[0].startTime == mid && extra[0].endTime == to
    ensures Tiles(segs + extra, from, to)
  {
  }

  lemma {:induction false} TilesSum(segs: seq<PhaseSegment>, from: int, to: int)
    requires Tiles(segs, from, to)
    ensures TotalSeconds(segs) == to - from
  {
    if segs != [] {
      TilesDropLast(segs, from, to);
      TilesSum(segs[..|segs| - 1], from, segs[|segs| - 1].startTime);
    }
  }

  lemma {:induction false} TilesInOrder(segs: seq<PhaseSegment>, from: int, to: int)
    requires Tiles(segs, from, to)
    ensures forall k :: 0 <= k < |segs| ==> from <= segs[k].startTime < segs[k].endTime <= to
    ensures forall i, j :: 0 <= i < j < |segs| ==> segs[i].endTime <= segs[j].startTime
  {
    if segs != [] {
      var n := |segs|;
      var init := segs[..n - 1];
      TilesDropLast(segs, from, to);
      TilesInOrder(init, from, segs[n - 1].startTime);
      assert forall k :: 0 <= k < n - 1 ==> segs[k] == init[k];
    }
  }

  /** The open segment always starts at a record time, and what was emitted tiles
      the time from the first record up to it. */
  lemma {:induction false} ScanPrefixTiles(mmsi: int, records: seq<Record>)
    requires TimeSorted(records) && |records| > 0
    ensures var st := ScanPrefix(mmsi, records);
      && records[0].receivedAt <= st.open.since <= records[|records| - 1].receivedAt
      && Tiles(st.emitted, records[0].receivedAt, st.open.since)
  {
    var n := |records|;
    var init := records[..n - 1];
    if n > 1 {
      assert TimeSorted(init);
      ScanPrefixTiles(mmsi, init);
      var st := ScanPrefix(mmsi, init);
      assert init[0] == records[0];
      assert records[n - 2].receivedAt <= records[n - 1].receivedAt;
      var r := records[n - 1];
      if r.status != st.open.status && r.receivedAt > st.open.since {
        TilesAppend(st.emitted, records[0].receivedAt, st.open.since,
                    Close(mmsi, st.open.status, st.open.since, r.receivedAt), r.receivedAt);
      }
    }
  }

  /** For time-sorted records whose last status is non-empty, the vessel's segments
      tile the whole observed span, from its first record to its last. */
  lemma VesselSegmentsTile(mmsi: int, records: seq<Record>)
    requires TimeSorted(records) && |records| > 0
    requires records[|records| - 1].status != ""
    ensures Tiles(VesselSegments(mmsi, records), records[0].receivedAt, records[|records| - 1].receivedAt)
  {
    ScanPrefixTiles(mmsi, records);
    var st := ScanPrefix(mmsi, records);
    var last := records[|records| - 1].receivedAt;
    if last > st.open.since {
      TilesAppend(st.emitted, records[0].receivedAt, st.open.since,
                  Close(mmsi, st.open.status, st.open.since, last), last);
    }
  }

  /** The segments are in time order, each starts where the previous one ends,
      each has positive duration, and the durations add up to the observed span. */
  lemma VesselSegmentsSumToSpan(mmsi: int, records: seq<Record>)
    requires TimeSorted(records) && |records| > 0
    requires records[|records| - 1].status != ""
    ensures var segs := VesselSegments(mmsi, records);
      && (forall k :: 0 <= k < |segs| ==> segs[k].durationSeconds > 0)
      && (forall k :: 0 <= k < |segs| - 1 ==> segs[k].endTime == segs[k + 1].startTime)
      && (forall i, j :: 0 <= i < j < |segs| ==> segs[i].endTime <= segs[j].startTime)
      && TotalSeconds(segs) == records[|records| - 1].receivedAt - records[0].receivedAt
  {
    var segs := VesselSegments(mmsi, records);
    var first, last := records[0].receivedAt, records[|records| - 1].receivedAt;
    VesselSegmentsTile(mmsi, records);
    TilesSum(segs, first, last);
    TilesInOrder(segs, first, last);
  }

  lemma {:induction false} ScanPrefixCount(mmsi: int, records: seq<Record>)
    ensures |ScanPrefix(mmsi, records).emitted| <= StatusChanges(records)
  {
    if records != [] {
      var init := records[..|records| - 1];
      ScanPrefixCount(mmsi, init);
    }
  }

  /** At most one segment per status change plus the tail; at least one when the
      records span positive time (time-sorted, non-empty last status). */
  lemma VesselSegmentCount(mmsi: int, records: seq<Record>)
    ensures |VesselSegments(mmsi, records)| <= StatusChanges(records) + 1
    ensures TimeSorted(records) && |records| > 0 && records[|records| - 1].status != "" &&
            records[0].receivedAt < records[|records| - 1].receivedAt ==>
              |VesselSegments(mmsi, records)| >= 1
  {
    ScanPrefixCount(mmsi, records);
    if TimeSorted(records) && |records| > 0 && records[|records| - 1].status != "" {
      VesselSegmentsTile(mmsi, records);
    }
  }

  lemma {:induction false} SameInstantScan(mmsi: int, records: seq<Record>)
    requires |records| > 0
    requires forall k :: 0 <= k < |records| ==> records[k].receivedAt == records[0].receivedAt
    ensures ScanPrefix(mmsi, records).emitted == []
    ensures ScanPrefix(mmsi, records).open.since == records[0].receivedAt
  {
    var init := records[..|records| - 1];
    if |init| > 0 {
      SameInstantScan(mmsi, init);
    }
  }

  /** The first record only opens a segment: a single record, or records all at the
      same instant, yield nothing. */
  lemma SameInstantYieldsNothing(mmsi: int, records: seq<Record>)
    requires forall k :: 0 <= k < |records| ==> records[k].receivedAt == records[0].receivedAt
    ensures VesselSegments(mmsi, records) == []
  {
    if |records| > 0 {
      SameInstantScan(mmsi, records);
    }
  }

  /** A transition at the very instant the open status began closes nothing, yet
      the scan still switches to the new status from that record on. */
  lemma ZeroDurationTransitionExample()
    ensures VesselSegments(7, [Record(7, 0, "Anchoring"), Record(7, 0, "Approaching"),
                               Record(7, 600, "Berthing"), Record(7, 4200, "Berthing")]) ==
            [MakeSegment(7, "Approaching", 0, 600), MakeSegment(7, "Berthing", 600, 4200)]
  {
    var rs := [Record(7, 0, "Anchoring"), Record(7, 0, "Approaching"),
               Record(7, 600, "Berthing"), Record(7, 4200, "Berthing")];
    assert rs[..1] == [rs[0]] && rs[..2] == [rs[0], rs[1]] && rs[..3] == [rs[0], rs[1], rs[2]];
    assert rs[..1][..0] == [] && rs[..2][..1] == rs[..1] && rs[..3][..2] == rs[..2] && rs[..4] == rs;
    assert ScanPrefix(7, rs[..1]) == ScanState(Open("Anchoring", 0), []);
    assert "Approaching" != "Anchoring";
    assert ScanPrefix(7, rs[..2]) == ScanState(Open("Approaching", 0), []);
    assert "Berthing" != "Approaching";
    assert ScanPrefix(7, rs[..3]) == ScanState(Open("Berthing", 600), [MakeSegment(7, "Approaching", 0, 600)]);
  }

  /** Every segment opens at a record of the vessel and carries the normalised
      status of that record. */
  lemma {:induction false} ScanPrefixOrigins(mmsi: int, records: seq<Record>)
    ensures var st := ScanPrefix(mmsi, records);
      && (st.open.Open? ==> exists k :: 0 <= k < |records| && records[k].receivedAt == st.open.since &&
                                        records[k].status == st.open.status)
      && (forall seg :: seg in st.emitted ==>
            exists k :: 0 <= k < |records| && records[k].receivedAt == seg.startTime &&
                        Normalize(records[k].status) == seg.phase)
  {
    if records != [] {
      var n := |records|;
      var init := records[..n - 1];
      ScanPrefixOrigins(mmsi, init);
      var st := ScanPrefix(mmsi, init);
      forall seg | seg in ScanPrefix(mmsi, records).emitted
        ensures exists k :: 0 <= k < n && records[k].receivedAt == seg.startTime &&
                            Normalize(records[k].status) == seg.phase
      {
        if seg in st.emitted {
          var k :| 0 <= k < n - 1 && init[k].receivedAt == seg.startTime &&
                   Normalize(init[k].status) == seg.phase;
          assert records[k] == init[k];
        } else {
          var k :| 0 <= k < n - 1 && init[k].receivedAt == st.open.since &&
                   init[k].status == st.open.status;
          assert records[k] == init[k];
        }
      }
      if st.open.Open? && st.open.status == records[n - 1].status {
        var k :| 0 <= k < n - 1 && init[k].receivedAt == st.open.since &&
                 init[k].status == st.open.status;
        assert records[k] == init[k];
      }
    }
  }

  // ---------------------------------------------------------------------------
  // Grouping by vessel

  /** Vessels in order of their first record: the key order of `ships_data`. */
  function VesselOrder(qs: seq<Record>): (vessels: seq<int>)
    ensures forall m :: m in vessels <==> exists k :: 0 <= k < |qs| && qs[k].mmsi == m
    ensures forall i, j :: 0 <= i < j < |vessels| ==> vessels[i] != vessels[j]
  {
    if qs == [] then []
    else
      var earlier := VesselOrder(qs[..|qs| - 1]);
      var m := qs[|qs| - 1].mmsi;
      if m in earlier then earlier else earlier + [m]
  }

  /** The records of vessel `m`, in query order: `ships_data[m]`. */
  function RecordsOf(qs: seq<Record>, m: int): (records: seq<Record>)
    ensures forall r :: r in records ==> r in qs && r.mmsi == m
    ensures records == [] <==> forall k :: 0 <= k < |qs| ==> qs[k].mmsi != m
  {
    if qs == [] then []
    else
      var earlier := RecordsOf(qs[..|qs| - 1], m);
      if qs[|qs| - 1].mmsi == m then earlier + [qs[|qs| - 1]] else earlier
  }

  /** `ships_data[m]` keeps every record of vessel `m`, as often as the query has it,
      and nothing else. */
  lemma {:induction false} RecordsOfContents(qs: seq<Record>, m: int, r: Record)
    ensures multiset(RecordsOf(qs, m))[r] == (if r.mmsi == m then multiset(qs)[r] else 0)
  {
    if qs != [] {
      var init := qs[..|qs| - 1];
      RecordsOfContents(init, m, r);
      assert qs == init + [qs[|qs| - 1]];
    }
  }

  /** Grouping distributes over concatenation of the query: with the one-record
      case of the definition, `ships_data[m]` is exactly the records of vessel `m`,
      every one of them, in query order. */
  lemma {:induction false} RecordsOfConcat(a: seq<Record>, b: seq<Record>, m: int)
    ensures RecordsOf(a + b, m) == RecordsOf(a, m) + RecordsOf(b, m)
  {
    if b == [] {
      assert a + b == a;
    } else {
      var init := b[..|b| - 1];
      RecordsOfConcat(a, init, m);
      assert (a + b)[..|a + b| - 1] == a + init;
      assert (a + b)[|a + b| - 1] == b[|b| - 1];
    }
  }

  lemma RecordsOfSingle(r: Record, m: int)
    ensures RecordsOf([r], m) == (if r.mmsi == m then [r] else [])
  {
    assert [r][..0] == [];
  }

  /** The loop that fills `ships_data`. */
  method GroupByVessel(qs: seq<Record>) returns (shipsData: map<int, seq<Record>>, vessels: seq<int>)
    ensures vessels == VesselOrder(qs)
    ensures forall m :: m in shipsData <==> m in vessels
    ensures forall m :: m in shipsData ==> shipsData[m] == RecordsOf(qs, m) && shipsData[m] != []
  {
    shipsData, vessels := map[], [];
    for i := 0 to |qs|
      invariant vessels == VesselOrder(qs[..i])
      invariant forall m :: m in shipsData <==> m in vessels
      invariant forall m :: m in shipsData ==> shipsData[m] == RecordsOf(qs[..i], m) && shipsData[m] != []
    {
      assert qs[..i + 1][..i] == qs[..i];
      var entry := qs[i];
      if entry.mmsi in shipsData {
        shipsData := shipsData[entry.mmsi := shipsData[entry.mmsi] + [entry]];
      } else {
        shipsData := shipsData[entry.mmsi := [entry]];
        vessels := vessels + [entry.mmsi];
      }
    }
    assert qs[..|qs|] == qs;
  }

  /** Records are time-sorted within each vessel (the query orders by mmsi, received_at). */
  predicate VesselTimeSorted(qs: seq<Record>)
  {
    forall i, j :: 0 <= i < j < |qs| && qs[i].mmsi == qs[j].mmsi ==> qs[i].receivedAt <= qs[j].receivedAt
  }

  /** A bound on the times of vessel `m`'s records bounds its group. */
  lemma {:induction false} RecordsOfBounded(qs: seq<Record>, m: int, t: int)
    requires forall k :: 0 <= k < |qs| && qs[k].mmsi == m ==> qs[k].receivedAt <= t
    ensures forall k :: 0 <= k < |RecordsOf(qs, m)| ==> RecordsOf(qs, m)[k].receivedAt <= t
  {
    if qs != [] {
      RecordsOfBounded(qs[..|qs| - 1], m, t);
    }
  }

  lemma {:induction false} RecordsOfSorted(qs: seq<Record>, m: int)
    requires VesselTimeSorted(qs)
    ensures TimeSorted(RecordsOf(qs, m))
  {
    if qs != [] {
      var n := |qs|;
      var init := qs[..n - 1];
      assert VesselTimeSorted(init);
      RecordsOfSorted(init, m);
      if qs[n - 1].mmsi == m {
        var earlier := RecordsOf(init, m);
        RecordsOfBounded(init, m, qs[n - 1].receivedAt);
        var all := earlier + [qs[n - 1]];
        assert RecordsOf(qs, m) == all;
        forall i, j | 0 <= i < j < |all|
          ensures all[i].receivedAt <= all[j].receivedAt
        {
          assert all[i] == earlier[i];
          if j < |all| - 1 {
            assert all[j] == earlier[j];
          }
        }
      }
    }
  }

  // ---------------------------------------------------------------------------
  // The whole run and the table

  /** Segments of the listed vessels, vessel after vessel. */
  function SegmentsFor(qs: seq<Record>, vessels: seq<int>): (segs: seq<PhaseSegment>)
    ensures forall seg :: seg in segs ==> WellFormed(seg) && seg.mmsi in vessels
  {
    if vessels == [] then []
    else
      var m := vessels[|vessels| - 1];
      var earlier := SegmentsFor(qs, vessels[..|vessels| - 1]);
      assert forall seg :: seg in earlier ==> seg.mmsi in vessels by {
        forall seg | seg in earlier ensures seg.mmsi in vessels {
          var v :| v in vessels[..|vessels| - 1] && v == seg.mmsi;
        }
      }
      earlier + VesselSegments(m, RecordsOf(qs, m))
  }

  /** Everything one run of compute_phase_durations writes. */
  function AllSegments(qs: seq<Record>): seq<PhaseSegment>
  {
    SegmentsFor(qs, VesselOrder(qs))
  }

  /** The rows of vessel `m`, in table order. */
  function RowsOf(rows: seq<PhaseSegment>, m: int): seq<PhaseSegment>
  {
    if rows == [] then []
    else
      var earlier := RowsOf(rows[..|rows| - 1], m);
      if rows[|rows| - 1].mmsi == m then earlier + [rows[|rows| - 1]] else earlier
  }

  lemma {:induction false} RowsOfConcat(a: seq<PhaseSegment>, b: seq<PhaseSegment>, m: int)
    ensures RowsOf(a + b, m) == RowsOf(a, m) + RowsOf(b, m)
  {
    if b == [] {
      assert a + b == a;
    } else {
      var n := |b|;
      assert (a + b)[..|a + b| - 1] == a + b[..n - 1];
      assert (a + b)[|a + b| - 1] == b[n - 1];
      RowsOfConcat(a, b[..n - 1], m);
    }
  }

  lemma {:induction false} RowsOfUniform(rows: seq<PhaseSegment>, m: int)
    ensures (forall seg :: seg in rows ==> seg.mmsi == m) ==> RowsOf(rows, m) == rows
    ensures (forall seg :: seg in rows ==> seg.mmsi != m) ==> RowsOf(rows, m) == []
  {
    if rows != [] {
      var init := rows[..|rows| - 1];
      assert forall seg :: seg in init ==> seg in rows;
      RowsOfUniform(init, m);
    }
  }

  lemma {:induction false} RowsOfSegmentsFor(qs: seq<Record>, vessels: seq<int>, m: int)
    requires forall i, j :: 0 <= i < j < |vessels| ==> vessels[i] != vessels[j]
    ensures m in vessels ==> RowsOf(SegmentsFor(qs, vessels), m) == VesselSegments(m, RecordsOf(qs, m))
    ensures m !in vessels ==> RowsOf(SegmentsFor(qs, vessels), m) == []
  {
    if vessels != [] {
      var n := |vessels|;
      var v := vessels[n - 1];
      var init := vessels[..n - 1];
      assert forall i, j :: 0 <= i < j < |init| ==> init[i] != init[j] by {
        forall i, j | 0 <= i < j < |init| ensures init[i] != init[j] {
          assert init[i] == vessels[i] && init[j] == vessels[j];
        }
      }
      RowsOfSegmentsFor(qs, init, m);
      var earlier := SegmentsFor(qs, init);
      var mine := VesselSegments(v, RecordsOf(qs, v));
      assert SegmentsFor(qs, vessels) == earlier + mine;
      RowsOfConcat(earlier, mine, m);
      RowsOfUniform(mine, m);
      assert vessels == init + [v];
      if v == m {
        assert m !in init by {
          forall i | 0 <= i < n - 1 ensures init[i] != m {
            assert vessels[i] != vessels[n - 1];
          }
        }
      }
    }
  }

  /** The table holds, for each vessel, exactly that vessel's scan. */
  lemma TableRowsOfVessel(qs: seq<Record>, m: int)
    ensures RowsOf(AllSegments(qs), m) == VesselSegments(m, RecordsOf(qs, m))
  {
    RowsOfSegmentsFor(qs, VesselOrder(qs), m);
  }

  /** For input sorted by time within each vessel, each vessel whose last record
      has a non-empty status has rows that tile its observed span. */
  lemma AllSegmentsTileEachVessel(qs: seq<Record>, m: int)
    requires VesselTimeSorted(qs)
    requires exists k :: 0 <= k < |qs| && qs[k].mmsi == m
    requires RecordsOf(qs, m)[|RecordsOf(qs, m)| - 1].status != ""
    ensures var records := RecordsOf(qs, m);
      |records| > 0 &&
      Tiles(RowsOf(AllSegments(qs), m), records[0].receivedAt, records[|records| - 1].receivedAt)
  {
    var records := RecordsOf(qs, m);
    TableRowsOfVessel(qs, m);
    RecordsOfSorted(qs, m);
    assert records[|records| - 1] in records;
    VesselSegmentsTile(m, records);
  }

  /** Number of rows carrying `phase`. */
  function PhaseCount(rows: seq<PhaseSegment>, phase: string): (n: nat)
    ensures n <= |rows|
    ensures n == 0 <==> forall k :: 0 <= k < |rows| ==> rows[k].phase != phase
  {
    if rows == [] then 0
    else PhaseCount(rows[..|rows| - 1], phase) + (if rows[|rows| - 1].phase == phase then 1 else 0)
  }

  /** The count is the multiplicity of `phase` in the phase column, as `Counter` has it. */
  lemma {:induction false} PhaseCountIsMultiplicity(rows: seq<PhaseSegment>, phase: string)
    ensures PhaseCount(rows, phase) == multiset(PhasesOf(rows))[phase]
  {
    if rows != [] {
      var init := rows[..|rows| - 1];
      PhaseCountIsMultiplicity(init, phase);
      assert PhasesOf(rows) == PhasesOf(init) + [rows[|rows| - 1].phase];
    }
  }

  /** The phase column of `rows`. */
  function PhasesOf(rows: seq<PhaseSegment>): (phases: seq<string>)
    ensures |phases| == |rows|
    ensures forall k :: 0 <= k < |rows| ==> phases[k] == rows[k].phase
  {
    seq(|rows|, k requires 0 <= k < |rows| => rows[k].phase)
  }

  /** `counter` holds, for each phase present in `rows`, the number of rows carrying it. */
  ghost predicate CountsOf(counter: map<string, nat>, rows: seq<PhaseSegment>)
  {
    forall p :: (p in counter <==> PhaseCount(rows, p) > 0) && (p in counter ==> counter[p] == PhaseCount(rows, p))
  }

  /** One more result: its phase's count goes up by one, or starts at one. */
  lemma CountsOfSnoc(counter: map<string, nat>, rows: seq<PhaseSegment>, i: nat)
    requires i < |rows| && CountsOf(counter, rows[..i])
    ensures var phase := rows[i].phase;
      CountsOf(counter[phase := if phase in counter then counter[phase] + 1 else 1], rows[..i + 1])
  {
    assert rows[..i + 1][..i] == rows[..i];
  }

  /** `Counter(phase for ... in results)`. */
  method CountPhases(results: seq<PhaseSegment>) returns (counter: map<string, nat>)
    ensures forall p :: p in counter <==> exists k :: 0 <= k < |results| && results[k].phase == p
    ensures forall p :: p in counter ==> counter[p] == PhaseCount(results, p) && counter[p] > 0
  {
    counter := map[];
    for i := 0 to |results|
      invariant CountsOf(counter, results[..i])
    {
      CountsOfSnoc(counter, results, i);
      var phase := results[i].phase;
      if phase in counter {
        counter := counter[phase := counter[phase] + 1];
      } else {
        counter := counter[phase := 1];
      }
    }
    assert results[..|results|] == results;
  }

  /** The ship_phase_duration table. */
  class PhaseDurationTable {
    var rows: seq<PhaseSegment>

    constructor (initial: seq<PhaseSegment>)
      ensures rows == initial
    {
      rows := initial;
    }

    /** `DELETE FROM ship_phase_duration`. */
    method DeleteAll()
      modifies this
      ensures rows == []
    {
      rows := [];
    }

    /** `executemany(INSERT ...)`: the batch is appended in order. */
    method InsertMany(batch: seq<PhaseSegment>)
      modifies this
      ensures rows == old(rows) + batch
    {
      rows := rows + batch;
    }
  }

  /** compute_phase_durations: scan every vessel, replace the table with the results,
      and summarise the results per phase. */
  method ComputePhaseDurations(qs: seq<Record>, table: PhaseDurationTable) returns (phaseCounter: map<string, nat>)
    modifies table
    ensures table.rows == AllSegments(qs)
    ensures forall p :: p in phaseCounter <==> exists k :: 0 <= k < |table.rows| && table.rows[k].phase == p
    ensures forall p :: p in phaseCounter ==> phaseCounter[p] == PhaseCount(table.rows, p)
  {
    var shipsData, vessels := GroupByVessel(qs);
    var results: seq<PhaseSegment> := [];
    for j := 0 to |vessels|
      invariant results == SegmentsFor(qs, vessels[..j])
    {
      var m := vessels[j];
      assert vessels[..j + 1] == vessels[..j] + [m];
      assert m in vessels;
      var segs := ScanVessel(m, shipsData[m]);
      assert SegmentsFor(qs, vessels[..j + 1]) == SegmentsFor(qs, vessels[..j]) + segs;
      results := results + segs;
    }
    assert vessels[..|vessels|] == vessels;
    table.DeleteAll();
    table.InsertMany(results);
    phaseCounter := CountPhases(results);
  }
}
